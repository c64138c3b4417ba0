/** Usage accounting over an image collection: how many generated pictures
    the images of one user hold, summed over the collection in its insertion
    order, and how that sum moves when a record is added, changed or
    removed. Both servers keep their images in such an order (the
    dictionary's insertion order, the collection's natural order). */
module Ledger {
  import opened Records

  /** Every id of the order has a record. */
  predicate Indexed(order: seq<string>, images: map<string, ImageRecord>) {
    forall i | 0 <= i < |order| :: order[i] in images
  }

  /** No id is listed twice. */
  predicate Distinct(order: seq<string>) {
    forall i, j | 0 <= i < j < |order| :: order[i] != order[j]
  }

  /** Appending an id not yet listed keeps the order free of repeats. */
  lemma DistinctSnoc(order: seq<string>, id: string)
    requires Distinct(order) && id !in order
    ensures Distinct(order + [id])
  {
    var o := order + [id];
    forall i, j | 0 <= i < j < |o| ensures o[i] != o[j] {
      assert o[i] == order[i];
    }
  }

  /** The number of generated pictures one record contributes to `email`. */
  function Share(rec: ImageRecord, email: string): nat {
    if rec.owner == email then |rec.generated| else 0
  }

  /** The number of generated pictures held by the images `email` owns. */
  function GeneratedBy(order: seq<string>, images: map<string, ImageRecord>, email: string): nat
    requires Indexed(order, images)
  {
    if order == [] then 0
    else GeneratedBy(order[..|order| - 1], images, email) + Share(images[order[|order| - 1]], email)
  }

  /** The sum depends only on the records the order lists. */
  lemma {:induction false} GeneratedByFrame(order: seq<string>, m1: map<string, ImageRecord>,
                                            m2: map<string, ImageRecord>, email: string)
    requires Indexed(order, m1) && Indexed(order, m2)
    requires forall i | 0 <= i < |order| :: m1[order[i]] == m2[order[i]]
    ensures GeneratedBy(order, m1, email) == GeneratedBy(order, m2, email)
  {
    if order != [] {
      GeneratedByFrame(order[..|order| - 1], m1, m2, email);
    }
  }

  /** A user who owns none of the listed images holds no generated pictures. */
  lemma {:induction false} GeneratedByNone(order: seq<string>, images: map<string, ImageRecord>, email: string)
    requires Indexed(order, images)
    requires forall i | 0 <= i < |order| :: images[order[i]].owner != email
    ensures GeneratedBy(order, images, email) == 0
  {
    if order != [] {
      GeneratedByNone(order[..|order| - 1], images, email);
    }
  }

  /** Inserting a new record at the end adds exactly its share. */
  lemma GeneratedByAppend(order: seq<string>, images: map<string, ImageRecord>, id: string,
                          rec: ImageRecord, email: string)
    requires Indexed(order, images) && id !in order
    ensures Indexed(order + [id], images[id := rec])
    ensures GeneratedBy(order + [id], images[id := rec], email) == GeneratedBy(order, images, email) + Share(rec, email)
  {
    var order' := order + [id];
    assert order'[..|order'| - 1] == order;
    GeneratedByFrame(order, images, images[id := rec], email);
  }

  /** Replacing one listed record changes the sum by the difference of the
      two shares, and only that. */
  lemma {:induction false} GeneratedByUpdate(order: seq<string>, images: map<string, ImageRecord>, id: string,
                                             rec: ImageRecord, email: string)
    requires Indexed(order, images) && Distinct(order) && id in order
    ensures Indexed(order, images[id := rec])
    ensures GeneratedBy(order, images[id := rec], email) + Share(images[id], email)
            == GeneratedBy(order, images, email) + Share(rec, email)
  {
    var m := images[id := rec];
    var last := order[|order| - 1];
    var init := order[..|order| - 1];
    assert Indexed(order, m);
    if last == id {
      assert id !in init;
      GeneratedByFrame(init, images, m, email);
    } else {
      assert id in init by {
        var j :| 0 <= j < |order| && order[j] == id;
        assert j < |order| - 1 && init[j] == id;
      }
      GeneratedByUpdate(init, images, id, rec, email);
    }
  }

  /** The order with `id` taken out, the others kept in place. */
  function Without(order: seq<string>, id: string): (r: seq<string>)
    ensures forall x :: x in r <==> x in order && x != id
    ensures |r| <= |order|
  {
    if order == [] then []
    else Without(order[..|order| - 1], id) + (if order[|order| - 1] == id then [] else [order[|order| - 1]])
  }

  /** Deleting one listed record takes exactly its share away, and leaves
      the order without duplicates. */
  lemma {:induction false} GeneratedByRemove(order: seq<string>, images: map<string, ImageRecord>, id: string,
                                             email: string)
    requires Indexed(order, images) && Distinct(order) && id in images
    ensures Indexed(Without(order, id), images - {id})
    ensures Distinct(Without(order, id))
    ensures GeneratedBy(Without(order, id), images - {id}, email)
            + (if id in order then Share(images[id], email) else 0)
            == GeneratedBy(order, images, email)
  {
    var rest := Without(order, id);
    assert Indexed(rest, images - {id}) by {
      forall i | 0 <= i < |rest| ensures rest[i] in images - {id} {
        assert rest[i] in rest;
      }
    }
    if order != [] {
      var last := order[|order| - 1];
      var init := order[..|order| - 1];
      assert Distinct(init);
      assert last !in init;
      GeneratedByRemove(init, images, id, email);
      var restInit := Without(init, id);
      if last == id {
        assert rest == restInit;
        assert id !in init;
      } else {
        assert (id in order) == (id in init);
        assert (images - {id})[last] == images[last];
        assert rest == restInit + [last];
        assert rest[..|rest| - 1] == restInit;
        assert Distinct(rest) by {
          forall i, j | 0 <= i < j < |rest| ensures rest[i] != rest[j] {
            if j == |rest| - 1 {
              assert rest[i] in restInit;
            }
          }
        }
      }
    }
  }

  /** The ids of the images `email` owns, in the order of the collection. */
  function OwnedIds(order: seq<string>, images: map<string, ImageRecord>, email: string): (r: seq<string>)
    requires Indexed(order, images)
    ensures forall i | 0 <= i < |r| :: r[i] in order && images[r[i]].owner == email
    ensures forall i | 0 <= i < |order| && images[order[i]].owner == email :: order[i] in r
  {
    if order == [] then []
    else
      var last := order[|order| - 1];
      OwnedIds(order[..|order| - 1], images, email) + (if images[last].owner == email then [last] else [])
  }

  /** Scanning one more id of the order extends the owned list by that id
      exactly when `email` owns it. */
  lemma OwnedIdsSnoc(order: seq<string>, i: nat, images: map<string, ImageRecord>, email: string)
    requires Indexed(order, images) && i < |order|
    ensures Indexed(order[..i], images) && Indexed(order[..i + 1], images)
    ensures OwnedIds(order[..i + 1], images, email)
            == OwnedIds(order[..i], images, email) + (if images[order[i]].owner == email then [order[i]] else [])
  {
    assert order[..i + 1][..i] == order[..i];
  }

  /** An order without repeats gives an owned list without repeats. */
  lemma {:induction false} OwnedIdsDistinct(order: seq<string>, images: map<string, ImageRecord>, email: string)
    requires Indexed(order, images) && Distinct(order)
    ensures Distinct(OwnedIds(order, images, email))
  {
    if order != [] {
      var init, last := order[..|order| - 1], order[|order| - 1];
      assert Indexed(init, images) && Distinct(init);
      OwnedIdsDistinct(init, images, email);
      var r := OwnedIds(init, images, email);
      if images[last].owner == email {
        assert last !in r by {
          forall i | 0 <= i < |r| ensures r[i] != last {
            var j :| 0 <= j < |init| && init[j] == r[i];
          }
        }
        DistinctSnoc(r, last);
      }
    }
  }

  /** When the order lists every image once, the owned list holds exactly
      the images `email` owns, each once. */
  lemma OwnedIdsExact(order: seq<string>, images: map<string, ImageRecord>, email: string)
    requires Indexed(order, images) && Distinct(order) && forall id | id in images :: id in order
    ensures forall id :: id in OwnedIds(order, images, email) <==> id in images && images[id].owner == email
    ensures Distinct(OwnedIds(order, images, email))
  {
    OwnedIdsDistinct(order, images, email);
    var r := OwnedIds(order, images, email);
    forall id | id in images && images[id].owner == email ensures id in r {
      var i :| 0 <= i < |order| && order[i] == id;
    }
  }
}
