/** The image list as the dashboard and the gallery receive it from
    `GET /images`, and the newest-first order both put it in with
    `sort((a, b) => new Date(b.created_at) - new Date(a.created_at))`. */
module Listing {
  import M = MongoBackend
  import R = Records

  type Card = M.ImageSummary

  /** Every image is at least as new as the ones after it. */
  ghost predicate NewestFirst(xs: seq<Card>) {
    forall i, j | 0 <= i < j < |xs| :: xs[i].createdAt >= xs[j].createdAt
  }

  /** Place `x` after every image at least as new as itself, so that among
      images created at the same moment the earlier one stays first (the
      sort is stable). */
  function InsertByDate(x: Card, sorted: seq<Card>): (r: seq<Card>)
    requires NewestFirst(sorted)
    ensures NewestFirst(r)
    ensures multiset(r) == multiset(sorted) + multiset{x}
    ensures |r| == |sorted| + 1
    ensures r[0] == x || (sorted != [] && r[0] == sorted[0])
  {
    if sorted == [] then [x]
    else if sorted[0].createdAt < x.createdAt then [x] + sorted
    else
      var rest := InsertByDate(x, sorted[1..]);
      assert sorted == [sorted[0]] + sorted[1..];
      ConsNewest(sorted[0], rest);
      [sorted[0]] + rest
  }

  /** An image at least as new as the head of a newest-first list can go in
      front of it. */
  lemma ConsNewest(h: Card, rest: seq<Card>)
    requires NewestFirst(rest)
    requires rest != [] ==> h.createdAt >= rest[0].createdAt
    ensures NewestFirst([h] + rest)
  {
    var r := [h] + rest;
    forall i, j | 0 <= i < j < |r| ensures r[i].createdAt >= r[j].createdAt {
      if i == 0 && j > 1 {
        assert rest[0].createdAt >= rest[j - 1].createdAt;
      }
    }
  }

  /** The list in newest-first order. */
  function SortNewest(xs: seq<Card>): (r: seq<Card>)
    ensures NewestFirst(r)
    ensures multiset(r) == multiset(xs)
    ensures |r| == |xs|
  {
    if xs == [] then []
    else
      assert xs == xs[..|xs| - 1] + [xs[|xs| - 1]];
      InsertByDate(xs[|xs| - 1], SortNewest(xs[..|xs| - 1]))
  }

  /** The images created at moment `d`, in list order. */
  function SameDate(xs: seq<Card>, d: int): (r: seq<Card>)
    ensures forall i | 0 <= i < |r| :: r[i].createdAt == d
  {
    if xs == [] then [] else Own(xs[0], d) + SameDate(xs[1..], d)
  }

  /** One card as `SameDate` keeps it. */
  function Own(x: Card, d: int): seq<Card> {
    if x.createdAt == d then [x] else []
  }

  lemma SameDateCons(h: Card, t: seq<Card>, d: int)
    ensures SameDate([h] + t, d) == Own(h, d) + SameDate(t, d)
  {
    assert ([h] + t)[1..] == t;
  }

  lemma {:induction false} SameDateAppend(a: seq<Card>, b: seq<Card>, d: int)
    ensures SameDate(a + b, d) == SameDate(a, d) + SameDate(b, d)
  {
    if a == [] {
      assert a + b == b;
    } else {
      assert a + b == [a[0]] + (a[1..] + b);
      assert a == [a[0]] + a[1..];
      SameDateCons(a[0], a[1..] + b, d);
      SameDateAppend(a[1..], b, d);
    }
  }

  /** A newest-first list whose head is older than `d` holds nothing from
      `d`. */
  lemma {:induction false} SameDateOlder(xs: seq<Card>, d: int)
    requires NewestFirst(xs) && xs != [] && xs[0].createdAt < d
    ensures SameDate(xs, d) == []
  {
    if |xs| > 1 {
      assert NewestFirst(xs[1..]) && xs[1..][0].createdAt <= xs[0].createdAt;
      SameDateOlder(xs[1..], d);
    }
  }

  /** Inserting a card puts it after every card of its own moment. */
  lemma {:induction false} InsertStable(x: Card, sorted: seq<Card>, d: int)
    requires NewestFirst(sorted)
    ensures SameDate(InsertByDate(x, sorted), d) == SameDate(sorted, d) + Own(x, d)
  {
    if sorted == [] {
      SameDateCons(x, [], d);
    } else if sorted[0].createdAt < x.createdAt {
      SameDateCons(x, sorted, d);
      if x.createdAt == d {
        SameDateOlder(sorted, d);
      }
    } else {
      var h, t := sorted[0], sorted[1..];
      assert sorted == [h] + t;
      assert NewestFirst(t);
      InsertStable(x, t, d);
      assert InsertByDate(x, sorted) == [h] + InsertByDate(x, t);
      KeepFirst(h, t, InsertByDate(x, t), Own(x, d), d);
    }
  }

  /** A card in front of two lists with the same cards of moment `d`, up
      to a tail, keeps that relation. */
  lemma KeepFirst(h: Card, t: seq<Card>, u: seq<Card>, extra: seq<Card>, d: int)
    requires SameDate(u, d) == SameDate(t, d) + extra
    ensures SameDate([h] + u, d) == SameDate([h] + t, d) + extra
  {
    SameDateCons(h, u, d);
    SameDateCons(h, t, d);
    R.AppendAssoc(Own(h, d), SameDate(t, d), extra);
  }

  /** The sort is stable: the cards of any one moment keep the order they
      were fetched in. */
  lemma {:induction false} SortNewestStable(xs: seq<Card>, d: int)
    ensures SameDate(SortNewest(xs), d) == SameDate(xs, d)
  {
    if xs != [] {
      var init, last := xs[..|xs| - 1], xs[|xs| - 1];
      var sorted := SortNewest(init);
      calc {
        SameDate(SortNewest(xs), d);
        == { SortNewestLast(xs); }
        SameDate(InsertByDate(last, sorted), d);
        == { InsertStable(last, sorted, d); }
        SameDate(sorted, d) + Own(last, d);
        == { SortNewestStable(init, d); }
        SameDate(init, d) + Own(last, d);
        == { LastCard(init, last, d); }
        SameDate(init + [last], d);
        == { assert init + [last] == xs; }
        SameDate(xs, d);
      }
    }
  }

  /** The sort inserts the last card into the sorted rest. */
  lemma SortNewestLast(xs: seq<Card>)
    requires xs != []
    ensures SortNewest(xs) == InsertByDate(xs[|xs| - 1], SortNewest(xs[..|xs| - 1]))
  {
  }

  lemma LastCard(init: seq<Card>, last: Card, d: int)
    ensures SameDate(init + [last], d) == SameDate(init, d) + Own(last, d)
  {
    SameDateAppend(init, [last], d);
    SameDateCons(last, [], d);
  }
}
