/** The documents both servers keep about users and uploaded images, and the
    list operations they and the screens apply to the `generated_images` of
    an image: the search for the first entry with an id, and the removal of
    every entry with an id. */
module Records {
  import opened Base
  import opened Text

  /** Tokens and password hashes come from libraries outside the model; they
      are kept as opaque values that remember what they were made from. */
  datatype Credential = HashOf(secret: string)
  datatype AccessToken = TokenFor(identity: string)

  /** One entry of `generated_images`. */
  datatype GeneratedImage = GeneratedImage(id: string, path: string, scene: string, prompt: string, createdAt: int)

  /** An uploaded product photo with the pictures generated from it. */
  datatype ImageRecord = ImageRecord(owner: string, originalPath: string, processedPath: string,
                                     generated: seq<GeneratedImage>, createdAt: int)

  datatype Subscription = Subscription(tier: string, startedAt: int, nextBillingDate: int)
  datatype Usage = Usage(imagesGenerated: nat, lastReset: int)

  predicate IsHexDigit(c: char) {
    '0' <= c <= '9' || 'a' <= c <= 'f' || 'A' <= c <= 'F'
  }

  /** A string `ObjectId(s)` accepts: 24 hexadecimal digits. */
  predicate IsObjectId(s: string) {
    |s| == 24 && forall i | 0 <= i < |s| :: IsHexDigit(s[i])
  }

  /** `str(ObjectId(s))`: the id in the lower-case form the database keys
      documents by, so that upper- and lower-case spellings find the same
      document. */
  function ObjectIdKey(s: string): (k: string)
    requires IsObjectId(s)
    ensures IsObjectId(k) && |k| == |s|
    ensures forall i | 0 <= i < |k| :: !IsUpper(k[i]) && Lower(s[i]) == k[i]
  {
    seq(|s|, i requires 0 <= i < |s| => Lower(s[i]))
  }

  /** Normalising twice is normalising once. */
  lemma ObjectIdKeyIdempotent(s: string)
    requires IsObjectId(s)
    ensures ObjectIdKey(ObjectIdKey(s)) == ObjectIdKey(s)
  {
  }

  const UploadFolder := "uploads"
  const ProcessedFolder := "processed"

  /** Where both servers' `process_image` saves the processed copy of an
      upload: the processed folder, under the upload's base name prefixed
      with `processed_`. */
  function ProcessedPath(imagePath: string): (p: string)
    ensures var name := "processed_" + AfterLast(imagePath, '/');
            p == ProcessedFolder + "/" + name && AfterLast(p, '/') == name
  {
    var name := "processed_" + AfterLast(imagePath, '/');
    AfterLastSegment(imagePath, '/');
    assert '/' !in name;
    AfterLastOf(ProcessedFolder, '/', name);
    PathJoin(ProcessedFolder, name)
  }

  /** The images after one generated entry is appended to the list of
      image `id` (`.append` in memory, `$push` in the database). */
  function WithEntry(images: map<string, ImageRecord>, id: string, entry: GeneratedImage): map<string, ImageRecord>
    requires id in images
  {
    images[id := images[id].(generated := images[id].generated + [entry])]
  }

  /** `timedelta(days=n)` in seconds. */
  function Days(n: nat): nat { n * 86400 }

  function GeneratedId(g: GeneratedImage): string { g.id }

  /** Some entry of `gens` has id `id`. */
  predicate HasId(gens: seq<GeneratedImage>, id: string) {
    exists k | 0 <= k < |gens| :: gens[k].id == id
  }

  /** The scan `for gen_img in generated_images: if gen_img['id'] == id:
      ...; break`: the first entry with the id, or nothing. */
  method FindGenerated(gens: seq<GeneratedImage>, id: string) returns (found: Option<GeneratedImage>)
    ensures found.None? <==> !HasId(gens, id)
    ensures found.Some? ==> exists k | 0 <= k < |gens| ::
      gens[k] == found.value && found.value.id == id && forall j | 0 <= j < k :: gens[j].id != id
  {
    found := None;
    var i := 0;
    while i < |gens|
      invariant 0 <= i <= |gens|
      invariant forall j | 0 <= j < i :: gens[j].id != id
    {
      if gens[i].id == id {
        found := Some(gens[i]);
        return;
      }
      i := i + 1;
    }
  }

  /** `xs.filter(x => key(x) !== k)`, and Mongo's `$pull` of every element
      whose key equals `k`. */
  function RemoveKey<T>(xs: seq<T>, key: T -> string, k: string): (r: seq<T>)
    ensures |r| <= |xs|
    ensures forall i | 0 <= i < |r| :: key(r[i]) != k
    ensures forall x | x in xs && key(x) != k :: x in r
    ensures forall x | x in r :: x in xs
  {
    if xs == [] then []
    else (if key(xs[0]) == k then [] else [xs[0]]) + RemoveKey(xs[1..], key, k)
  }

  /** One step of the removal: the first entry stays or goes, then the rest. */
  lemma RemoveKeyFirst<T>(xs: seq<T>, key: T -> string, k: string)
    requires xs != []
    ensures RemoveKey(xs, key, k) == (if key(xs[0]) == k then [] else [xs[0]]) + RemoveKey(xs[1..], key, k)
  {
  }

  /** Removal works piece by piece, so the entries that stay keep their order. */
  lemma {:induction false} RemoveKeyAppend<T>(a: seq<T>, b: seq<T>, key: T -> string, k: string)
    ensures RemoveKey(a + b, key, k) == RemoveKey(a, key, k) + RemoveKey(b, key, k)
  {
    if a == [] {
      assert a + b == b;
    } else {
      var ab := a + b;
      assert ab[0] == a[0] && ab[1..] == a[1..] + b;
      RemoveKeyFirst(ab, key, k);
      RemoveKeyFirst(a, key, k);
      RemoveKeyAppend(a[1..], b, key, k);
      var h := if key(a[0]) == k then [] else [a[0]];
      var x, y := RemoveKey(a[1..], key, k), RemoveKey(b, key, k);
      AppendAssoc(h, x, y);
    }
  }

  lemma AppendAssoc<T>(a: seq<T>, b: seq<T>, c: seq<T>)
    ensures a + (b + c) == (a + b) + c
  {
  }

  /** The list comes back unchanged exactly when no element carries the key. */
  lemma {:induction false} RemoveKeyAbsent<T>(xs: seq<T>, key: T -> string, k: string)
    ensures (forall i | 0 <= i < |xs| :: key(xs[i]) != k) <==> RemoveKey(xs, key, k) == xs
  {
    if xs != [] && forall i | 0 <= i < |xs| :: key(xs[i]) != k {
      var tail := xs[1..];
      forall i | 0 <= i < |tail| ensures key(tail[i]) != k {
        assert tail[i] == xs[i + 1];
      }
      RemoveKeyAbsent(tail, key, k);
      RemoveKeyFirst(xs, key, k);
      assert xs == [xs[0]] + tail;
    }
  }
}
