/** The dashboard's figures, computed from the image list and the user's
    subscription when the page loads: the five newest images, the images
    created this month, how often each scene was used and the favourite
    one, and the pictures left in the plan. */
module Dashboard {
  import opened Base
  import opened Text
  import M = MongoBackend
  import opened Listing

  // ----- the scene tally -----

  /** The scenes of one image's generated pictures, in order. */
  function EntryScenes(gens: seq<M.GeneratedView>): (r: seq<string>)
    ensures |r| == |gens|
    ensures forall k | 0 <= k < |gens| :: r[k] == gens[k].entry.scene
  {
    seq(|gens|, k requires 0 <= k < |gens| => gens[k].entry.scene)
  }

  /** The scene of every generated picture, image after image. */
  function Scenes(images: seq<Card>): seq<string> {
    if images == [] then []
    else Scenes(images[..|images| - 1]) + EntryScenes(images[|images| - 1].generated)
  }

  /** How many times `s` occurs in `xs`. */
  function Count(xs: seq<string>, s: string): nat {
    if xs == [] then 0
    else Count(xs[..|xs| - 1], s) + if xs[|xs| - 1] == s then 1 else 0
  }

  /** The distinct elements of `xs` in the order they first occur: the order
      in which keys enter a JavaScript object. */
  function FirstSeen(xs: seq<string>): seq<string> {
    if xs == [] then []
    else
      var init := xs[..|xs| - 1];
      FirstSeen(init) + if xs[|xs| - 1] in init then [] else [xs[|xs| - 1]]
  }

  ghost predicate Distinct(xs: seq<string>) {
    forall i, j | 0 <= i < j < |xs| :: xs[i] != xs[j]
  }

  /** The first-seen list names every element once. */
  lemma {:induction false} FirstSeenMembers(xs: seq<string>)
    ensures forall t :: t in FirstSeen(xs) <==> t in xs
    ensures Distinct(FirstSeen(xs))
  {
    if xs != [] {
      var init := xs[..|xs| - 1];
      FirstSeenMembers(init);
      assert xs == init + [xs[|xs| - 1]];
    }
  }

  /** A scene occurs at least once exactly when it is in the list. */
  lemma {:induction false} CountPositive(xs: seq<string>, t: string)
    ensures Count(xs, t) > 0 <==> t in xs
  {
    if xs != [] {
      var init := xs[..|xs| - 1];
      CountPositive(init, t);
      assert xs == init + [xs[|xs| - 1]];
    }
  }

  function SumCounts(keys: seq<string>, xs: seq<string>): nat {
    if keys == [] then 0
    else SumCounts(keys[..|keys| - 1], xs) + Count(xs, keys[|keys| - 1])
  }

  /** One more occurrence of `s` adds one to the sum over distinct keys
      exactly when `s` is one of them. */
  lemma {:induction false} SumCountsSnoc(keys: seq<string>, xs: seq<string>, s: string)
    requires Distinct(keys)
    ensures SumCounts(keys, xs + [s]) == SumCounts(keys, xs) + if s in keys then 1 else 0
  {
    if keys != [] {
      var init := keys[..|keys| - 1];
      SumCountsSnoc(init, xs, s);
      assert (xs + [s])[..|xs + [s]| - 1] == xs;
      assert keys == init + [keys[|keys| - 1]];
    }
  }

  /** The counts of the distinct scenes add up to the number of generated
      pictures. */
  lemma {:induction false} TallyTotal(xs: seq<string>)
    ensures SumCounts(FirstSeen(xs), xs) == |xs|
  {
    if xs != [] {
      var init := xs[..|xs| - 1];
      var s := xs[|xs| - 1];
      assert xs == init + [s];
      TallyTotal(init);
      FirstSeenMembers(init);
      SumCountsSnoc(FirstSeen(init), init, s);
      assert FirstSeen(xs) == FirstSeen(init) + if s in init then [] else [s];
      if s !in init {
        CountPositive(init, s);
        var f := FirstSeen(xs);
        assert f[..|f| - 1] == FirstSeen(init) && f[|f| - 1] == s;
        assert SumCounts(f, xs) == SumCounts(FirstSeen(init), xs) + Count(xs, s);
        assert Count(xs, s) == Count(init, s) + 1;
        assert s !in FirstSeen(init);
        assert SumCounts(FirstSeen(init), xs) == SumCounts(FirstSeen(init), init);
        assert SumCounts(FirstSeen(init), init) == |init|;
      } else {
        assert s in FirstSeen(init);
        assert FirstSeen(xs) == FirstSeen(init);
      }
    }
  }

  /** The per-scene counts: `t` is a key exactly when it occurs, and maps to
      how often it occurs. */
  ghost predicate Tallies(counts: map<string, nat>, xs: seq<string>) {
    && (forall t :: t in counts <==> t in xs)
    && (forall t | t in counts :: counts[t] == Count(xs, t))
  }

  /** One scene more in the tally. */
  method CountScene(counts: map<string, nat>, keys: seq<string>, ghost done: seq<string>, scene: string)
    returns (counts': map<string, nat>, keys': seq<string>)
    requires Tallies(counts, done) && keys == FirstSeen(done)
    ensures Tallies(counts', done + [scene]) && keys' == FirstSeen(done + [scene])
  {
    var d := done + [scene];
    assert d[..|d| - 1] == done;
    forall t ensures Count(d, t) == Count(done, t) + if scene == t then 1 else 0 {
    }
    assert FirstSeen(d) == FirstSeen(done) + if scene in done then [] else [scene];
    if scene in counts {
      counts' := counts[scene := counts[scene] + 1];
      keys' := keys;
    } else {
      counts' := counts[scene := 1];
      keys' := keys + [scene];
    }
    CountPositive(done, scene);
    forall t | t in counts' ensures counts'[t] == Count(d, t) {
      if t != scene {
        assert counts'[t] == counts[t];
      }
    }
  }

  /** The inner `forEach` over one image's generated pictures. */
  method TallyEntries(counts0: map<string, nat>, keys0: seq<string>, ghost before: seq<string>,
                      gens: seq<M.GeneratedView>)
    returns (counts: map<string, nat>, keys: seq<string>)
    requires Tallies(counts0, before) && keys0 == FirstSeen(before)
    ensures Tallies(counts, before + EntryScenes(gens)) && keys == FirstSeen(before + EntryScenes(gens))
  {
    counts, keys := counts0, keys0;
    ghost var scenes := EntryScenes(gens);
    ghost var done := before;
    var j := 0;
    assert scenes[..0] == [];
    while j < |gens|
      invariant 0 <= j <= |gens|
      invariant done == before + scenes[..j]
      invariant Tallies(counts, done) && keys == FirstSeen(done)
    {
      counts, keys := CountScene(counts, keys, done, gens[j].entry.scene);
      PrefixStep(before, scenes, j);
      done := done + [scenes[j]];
      j := j + 1;
    }
    assert scenes[..j] == scenes;
  }

  lemma PrefixStep(before: seq<string>, xs: seq<string>, j: nat)
    requires j < |xs|
    ensures (before + xs[..j]) + [xs[j]] == before + xs[..j + 1]
  {
    assert xs[..j + 1] == xs[..j] + [xs[j]];
  }

  /** The nested `forEach` that fills `sceneCounts`, with the order in which
      its keys were created. */
  method TallyScenes(images: seq<Card>) returns (counts: map<string, nat>, keys: seq<string>)
    ensures Tallies(counts, Scenes(images))
    ensures keys == FirstSeen(Scenes(images))
  {
    counts, keys := map[], [];
    var i := 0;
    while i < |images|
      invariant 0 <= i <= |images|
      invariant Tallies(counts, Scenes(images[..i])) && keys == FirstSeen(Scenes(images[..i]))
    {
      counts, keys := TallyEntries(counts, keys, Scenes(images[..i]), images[i].generated);
      assert images[..i + 1][..i] == images[..i];
      i := i + 1;
    }
    assert images[..i] == images;
  }

  /** The `Object.entries(sceneCounts)` loop: the first scene with the
      largest count (a later scene needs a strictly larger count to win),
      or `""` with count 0 when there is none. */
  method MostUsed(keys: seq<string>, counts: map<string, nat>) returns (scene: string, maxCount: nat)
    requires forall k | k in keys :: k in counts
    ensures forall i | 0 <= i < |keys| :: counts[keys[i]] <= maxCount
    ensures maxCount == 0 ==> scene == ""
    ensures maxCount > 0 ==> exists i | 0 <= i < |keys| ::
      keys[i] == scene && counts[scene] == maxCount && forall j | 0 <= j < i :: counts[keys[j]] < maxCount
  {
    scene, maxCount := "", 0;
    var i := 0;
    while i < |keys|
      invariant 0 <= i <= |keys|
      invariant forall k | 0 <= k < i :: counts[keys[k]] <= maxCount
      invariant maxCount == 0 ==> scene == ""
      invariant maxCount > 0 ==> exists w | 0 <= w < i ::
        keys[w] == scene && counts[scene] == maxCount && forall j | 0 <= j < w :: counts[keys[j]] < maxCount
    {
      var count := counts[keys[i]];
      if count > maxCount {
        scene, maxCount := keys[i], count;
      }
      i := i + 1;
    }
  }

  // ----- the other figures -----

  /** `slice(0, 5)` of the sorted list: at most five images, newest first,
      and no image left out is newer than the last one shown. */
  lemma RecentAreNewest(fetched: seq<Card>)
    ensures var sorted := SortNewest(fetched);
      var recent := sorted[..if |sorted| < 5 then |sorted| else 5];
      && |recent| <= 5
      && NewestFirst(recent)
      && multiset(recent) <= multiset(fetched)
      && (forall x | x in fetched && x !in recent :: x.createdAt <= recent[|recent| - 1].createdAt)
  {
    var sorted := SortNewest(fetched);
    TopOfSorted(sorted, fetched, if |sorted| < 5 then |sorted| else 5);
  }

  lemma TopOfSorted(sorted: seq<Card>, fetched: seq<Card>, n: nat)
    requires NewestFirst(sorted) && multiset(sorted) == multiset(fetched) && n <= |sorted|
    requires n == 0 ==> sorted == []
    ensures NewestFirst(sorted[..n])
    ensures multiset(sorted[..n]) <= multiset(fetched)
    ensures forall x | x in fetched && x !in sorted[..n] :: x.createdAt <= sorted[n - 1].createdAt
  {
    assert sorted == sorted[..n] + sorted[n..];
    assert multiset(sorted) == multiset(sorted[..n]) + multiset(sorted[n..]);
    forall x | x in fetched && x !in sorted[..n] ensures x.createdAt <= sorted[n - 1].createdAt {
      assert x in multiset(sorted);
      LeftOutIsOlder(sorted, n, x);
    }
  }

  /** Nothing after a prefix of a newest-first list is newer than the
      prefix's last element. */
  lemma LeftOutIsOlder(sorted: seq<Card>, n: nat, x: Card)
    requires NewestFirst(sorted) && 0 < n <= |sorted|
    requires x in sorted && x !in sorted[..n]
    ensures x.createdAt <= sorted[n - 1].createdAt
  {
    var i :| 0 <= i < |sorted| && sorted[i] == x;
    assert i >= n;
  }

  /** `filter(img => new Date(img.created_at) >= firstDayOfMonth).length`. */
  function CountSince(xs: seq<Card>, since: int): (n: nat)
    ensures n <= |xs|
    ensures n == |xs| <==> forall i | 0 <= i < |xs| :: xs[i].createdAt >= since
  {
    if xs == [] then 0
    else
      var init := xs[..|xs| - 1];
      assert forall i | 0 <= i < |init| :: init[i] == xs[i];
      CountSince(init, since) + if xs[|xs| - 1].createdAt >= since then 1 else 0
  }

  /** `user.subscription ? images_per_month - images_generated : 0`, with
      no clamp. */
  function RemainingImages(subscription: Option<M.SubscriptionView>): (r: int)
    ensures subscription.None? ==> r == 0
    ensures subscription.Some? ==>
      r == subscription.value.tierDetails.imagesPerMonth - subscription.value.usage.imagesGenerated
  {
    match subscription
    case None => 0
    case Some(s) => s.tierDetails.imagesPerMonth - s.usage.imagesGenerated
  }

  /** The label under "Most Used Scene". */
  function SceneLabel(scene: string): (text: string)
    ensures scene == "custom" ==> text == "Custom"
    ensures scene != "custom" ==> |text| == |scene| && forall i | 0 <= i < |scene| ::
      text[i] == (if scene[i] == '_' then ' '
                   else if i == 0 || scene[i - 1] == '_' then Upper(scene[i])
                   else scene[i])
  {
    if scene == "custom" then "Custom"
    else
      TitleWordsAt(scene);
      TitleWords(scene)
  }

  datatype Stats = Stats(totalImages: nat, imagesThisMonth: nat, remainingImages: int, mostUsedScene: string)

  /** `mostUsedScene || 'None'`. */
  function Shown(scene: string): string { if scene == "" then "None" else scene }

  /** The `i`-th distinct scene has the largest count, and every scene met
      before it has a smaller one. */
  ghost predicate Favourite(xs: seq<string>, i: int) {
    var keys := FirstSeen(xs);
    && 0 <= i < |keys|
    && (forall j | 0 <= j < |keys| :: Count(xs, keys[j]) <= Count(xs, keys[i]))
    && (forall j | 0 <= j < i :: Count(xs, keys[j]) < Count(xs, keys[i]))
  }

  /** What `MostUsed` picks from a tally is the favourite scene. */
  lemma MostUsedIsFavourite(xs: seq<string>, counts: map<string, nat>, keys: seq<string>,
                            scene: string, maxCount: nat)
    requires Tallies(counts, xs) && keys == FirstSeen(xs)
    requires forall k | k in keys :: k in counts
    requires forall i | 0 <= i < |keys| :: counts[keys[i]] <= maxCount
    requires maxCount == 0 ==> scene == ""
    requires maxCount > 0 ==> exists i | 0 <= i < |keys| ::
      keys[i] == scene && counts[scene] == maxCount && forall j | 0 <= j < i :: counts[keys[j]] < maxCount
    ensures xs == [] ==> scene == ""
    ensures xs != [] ==> exists i | Favourite(xs, i) :: scene == keys[i]
  {
    FirstSeenMembers(xs);
    if xs != [] {
      assert xs[0] in keys;
      assert keys[0] in keys;
      assert keys[0] in xs;
      CountPositive(xs, keys[0]);
      assert counts[keys[0]] == Count(xs, keys[0]);
      assert counts[keys[0]] <= maxCount;
      assert maxCount > 0;
      var i :| 0 <= i < |keys| && keys[i] == scene && counts[scene] == maxCount
               && forall j | 0 <= j < i :: counts[keys[j]] < maxCount;
      assert Favourite(xs, i);
    } else {
      assert keys == [];
    }
  }

  /** `fetchDashboardData` once `GET /images` answered. The list is sorted in
      place, so the tally runs over the sorted list and its ties go to the
      scene met first in newest-first order. */
  method FetchDashboardData(fetched: seq<Card>, subscription: Option<M.SubscriptionView>, firstDayOfMonth: int)
    returns (recent: seq<Card>, stats: Stats)
    ensures var sorted := SortNewest(fetched);
      var scenes := Scenes(sorted);
      && recent == sorted[..if |sorted| < 5 then |sorted| else 5]
      && stats.totalImages == |fetched|
      && stats.imagesThisMonth == CountSince(sorted, firstDayOfMonth)
      && stats.imagesThisMonth <= stats.totalImages
      && stats.remainingImages == RemainingImages(subscription)
      && (scenes == [] ==> stats.mostUsedScene == "None")
      && (scenes != [] ==> exists i | Favourite(scenes, i) :: stats.mostUsedScene == Shown(FirstSeen(scenes)[i]))
  {
    var sorted := SortNewest(fetched);
    recent := sorted[..if |sorted| < 5 then |sorted| else 5];
    var counts, keys := TallyScenes(sorted);
    ghost var scenes := Scenes(sorted);
    FirstSeenMembers(scenes);
    var scene, maxCount := MostUsed(keys, counts);
    MostUsedIsFavourite(scenes, counts, keys, scene, maxCount);
    stats := Stats(|sorted|, CountSince(sorted, firstDayOfMonth), RemainingImages(subscription), Shown(scene));
  }
}
