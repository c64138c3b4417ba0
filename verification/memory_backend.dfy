/** The in-memory server: module-level dictionaries of users and images that
    the routes update in place. The JWT identity of a request is the `email`
    parameter; clocks, uuids, the outcome of the image generator and whether
    an upload can be opened as a picture are parameters too. */
module MemoryBackend {
  import opened Base
  import opened Text
  import opened Records
  import opened Catalog
  import opened Ledger

  /** An entry of `users_db`. */
  datatype User = User(passwordHash: Credential, createdAt: int, subscription: Option<Subscription>, usage: Usage)

  /** The part of `request.files['file']` the routes look at. */
  datatype FileUpload = FileUpload(filename: string)

  /** `get_subscription`'s answer: the stored subscription with the catalog
      entry of its tier and the usage counter. */
  datatype SubscriptionView = SubscriptionView(tier: string, startedAt: int, nextBillingDate: int,
                                               tierDetails: Plan, usage: Usage)

  /** One element of `get_images`' list. */
  datatype ImageSummary = ImageSummary(id: string, createdAt: int, generated: seq<GeneratedImage>)

  /** `generate_image`'s answer. */
  datatype Generation = Generation(generatedId: string, remainingImages: int)

  /** Every image is listed once in insertion order and belongs to a known
      user, every stored tier is a catalog key, and each user's counter
      equals the number of generated pictures the user's images hold. */
  ghost predicate Consistent(users: map<string, User>, images: map<string, ImageRecord>, order: seq<string>) {
    && Indexed(order, images)
    && Distinct(order)
    && (forall id | id in images :: id in order)
    && (forall id | id in images :: images[id].owner in users)
    && (forall e | e in users && users[e].subscription.Some? :: users[e].subscription.value.tier in SubscriptionTiers)
    && (forall e | e in users :: users[e].usage.imagesGenerated == GeneratedBy(order, images, e))
  }

  /** A new account with nothing used keeps the books consistent. */
  lemma RegisterKeeps(users: map<string, User>, images: map<string, ImageRecord>, order: seq<string>,
                      email: string, u: User)
    requires Consistent(users, images, order)
    requires email !in users && u.usage.imagesGenerated == 0
    requires u.subscription.Some? ==> u.subscription.value.tier in SubscriptionTiers
    ensures Consistent(users[email := u], images, order)
  {
    GeneratedByNone(order, images, email);
  }

  /** A new image record with no generated pictures keeps the books consistent. */
  lemma UploadKeeps(users: map<string, User>, images: map<string, ImageRecord>, order: seq<string>,
                    id: string, rec: ImageRecord)
    requires Consistent(users, images, order)
    requires id !in images && rec.owner in users && rec.generated == []
    ensures Consistent(users, images[id := rec], order + [id])
  {
    var images', order' := images[id := rec], order + [id];
    assert id !in order;
    DistinctSnoc(order, id);
    forall e | e in users
      ensures users[e].usage.imagesGenerated == GeneratedBy(order', images', e)
    {
      GeneratedByAppend(order, images, id, rec, e);
    }
  }

  /** The accounts after one more picture is counted for `email`. */
  function Counted(users: map<string, User>, email: string): map<string, User>
    requires email in users
  {
    users[email := users[email].(usage := users[email].usage.(imagesGenerated := users[email].usage.imagesGenerated + 1))]
  }

  /** One more generated picture on the owner's image together with one
      more on the owner's counter keeps the books consistent. */
  lemma GenerateKeeps(users: map<string, User>, images: map<string, ImageRecord>, order: seq<string>,
                      id: string, entry: GeneratedImage)
    requires Consistent(users, images, order)
    requires id in images
    ensures images[id].owner in users
    ensures Consistent(Counted(users, images[id].owner), WithEntry(images, id, entry), order)
  {
    var owner := images[id].owner;
    var users', images' := Counted(users, owner), WithEntry(images, id, entry);
    var rec := images'[id];
    assert Indexed(order, images');
    forall e | e in users'
      ensures users'[e].usage.imagesGenerated == GeneratedBy(order, images', e)
    {
      GeneratedByUpdate(order, images, id, rec, e);
      if e != owner {
        assert Share(images[id], e) == 0 && Share(rec, e) == 0;
      }
    }
  }

  /** The answer to a generation, given the owner's record from before the
      increment: the quota less the incremented counter, or a server error
      when the account has no subscription to look the quota up in. */
  function GenerationAnswer(u: User, generatedId: string): (r: Response<Generation>)
    requires u.subscription.Some? ==> u.subscription.value.tier in SubscriptionTiers
    ensures u.subscription.Some? ==>
      r.Ok? && r.status == 200 && r.body.generatedId == generatedId
      && r.body.remainingImages + u.usage.imagesGenerated + 1 == Quota(u.subscription.value.tier)
    ensures u.subscription.None? ==> r.Err? && r.status == 500
  {
    if u.subscription.None? then Err(500, "'NoneType' object is not subscriptable")
    else Ok(200, Generation(generatedId, Quota(u.subscription.value.tier) - (u.usage.imagesGenerated + 1)))
  }

  class Store {
    var users: map<string, User>
    var images: map<string, ImageRecord>
    /** The insertion order of `images_db`. */
    var imageOrder: seq<string>

    ghost predicate Valid()
      reads this
    {
      Consistent(users, images, imageOrder)
    }

    constructor ()
      ensures Valid()
      ensures users == map[] && images == map[] && imageOrder == []
    {
      users := map[];
      images := map[];
      imageOrder := [];
    }

    /** `register`: a new account starts on the free tier with nothing used. */
    method Register(email: Option<string>, password: Option<string>, now: int) returns (r: Response<AccessToken>)
      requires Valid()
      modifies this
      ensures Valid()
      ensures images == old(images) && imageOrder == old(imageOrder)
      ensures !Truthy(email) || !Truthy(password) ==>
        r == Err(400, "Email and password are required") && users == old(users)
      ensures Truthy(email) && Truthy(password) && email.value in old(users) ==>
        r == Err(400, "User already exists") && users == old(users)
      ensures Truthy(email) && Truthy(password) && email.value !in old(users) ==>
        && r == Ok(201, TokenFor(email.value))
        && users == old(users)[email.value := User(HashOf(password.value), now,
                                                   Some(Subscription("free", now, now + Days(30))), Usage(0, now))]
    {
      if !Truthy(email) || !Truthy(password) {
        return Err(400, "Email and password are required");
      }
      var e := email.value;
      if e in users {
        return Err(400, "User already exists");
      }
      var u := User(HashOf(password.value), now, Some(Subscription("free", now, now + Days(30))), Usage(0, now));
      RegisterKeeps(users, images, imageOrder, e, u);
      users := users[e := u];
      r := Ok(201, TokenFor(e));
    }

    /** `subscribe`: only the subscription record is replaced, so the usage
        counter carries over to the new tier. An identity without an account
        makes the dictionary lookup fail, which the server answers with 500. */
    method Subscribe(email: string, tier: Option<string>, now: int) returns (r: Response<string>)
      requires Valid()
      modifies this
      ensures Valid()
      ensures images == old(images) && imageOrder == old(imageOrder)
      ensures (tier.None? || tier.value !in SubscriptionTiers) ==>
        r == Err(400, "Invalid subscription tier") && users == old(users)
      ensures tier.Some? && tier.value in SubscriptionTiers && email !in old(users) ==>
        r.Err? && r.status == 500 && users == old(users)
      ensures tier.Some? && tier.value in SubscriptionTiers && email in old(users) ==>
        && r == Ok(200, "Successfully subscribed to " + tier.value + " tier")
        && users == old(users)[email := old(users)[email].(subscription := Some(Subscription(tier.value, now, now + Days(30))))]
        && users[email].usage == old(users)[email].usage
    {
      if tier.None? || tier.value !in SubscriptionTiers {
        return Err(400, "Invalid subscription tier");
      }
      if email !in users {
        return Err(500, "KeyError");
      }
      users := users[email := users[email].(subscription := Some(Subscription(tier.value, now, now + Days(30))))];
      r := Ok(200, "Successfully subscribed to " + tier.value + " tier");
    }

    /** `get_subscription`: nothing when the user has no subscription,
        otherwise the subscription with its catalog entry and the usage. */
    function GetSubscription(email: string): (r: Response<Option<SubscriptionView>>)
      requires Valid()
      reads this
      ensures email !in users <==> r.Err?
      ensures r.Ok? ==> r.status == 200 && (r.body.None? <==> users[email].subscription.None?)
      ensures r.Ok? && r.body.Some? ==>
        var s := users[email].subscription.value;
        && r.body.value.tier == s.tier
        && r.body.value.startedAt == s.startedAt
        && r.body.value.nextBillingDate == s.nextBillingDate
        && r.body.value.tierDetails == SubscriptionTiers[s.tier]
        && r.body.value.usage == users[email].usage
    {
      if email !in users then Err(500, "KeyError")
      else match users[email].subscription
        case None => Ok(200, None)
        case Some(s) => Ok(200, Some(SubscriptionView(s.tier, s.startedAt, s.nextBillingDate,
                                                      SubscriptionTiers[s.tier], users[email].usage)))
    }

    /** The account exists, has a subscription and has not reached its
        tier's quota: the upload gate is open. */
    predicate Admitted(email: string)
      requires Valid()
      reads this
    {
      && email in users && users[email].subscription.Some?
      && users[email].usage.imagesGenerated < Quota(users[email].subscription.value.tier)
    }

    /** `upload_image`: the quota gate. A user without a subscription, or whose
        counter has reached the tier's quota, is refused before the file is
        looked at; a refused or failed upload creates no record. `secure`
        stands for `secure_filename`, `fileUuid` and `imageId` for the two
        `uuid4()` values and `readable` for whether the picture library can
        open the saved file. */
    method Upload(email: string, file: Option<FileUpload>, secure: string -> string, fileUuid: string,
                  readable: bool, imageId: string, now: int) returns (r: Response<string>)
      requires Valid()
      requires imageId !in images
      modifies this
      ensures Valid()
      ensures users == old(users)
      ensures email !in users ==> r.Err? && r.status == 500
      ensures email in users && users[email].subscription.None? ==> r == Err(403, "Active subscription required")
      ensures email in users && users[email].subscription.Some?
              && users[email].usage.imagesGenerated >= Quota(users[email].subscription.value.tier)
              ==> r == Err(403, "Monthly image limit reached")
      ensures Admitted(email) && file.None? ==> r == Err(400, "No file provided")
      ensures Admitted(email) && file.Some? && file.value.filename == "" ==> r == Err(400, "No file selected")
      ensures Admitted(email) && file.Some? && file.value.filename != "" ==> (r.Ok? <==> readable)
      ensures r.Err? ==> images == old(images) && imageOrder == old(imageOrder)
      ensures r.Ok? ==>
        && Admitted(email) && file.Some? && file.value.filename != "" && readable
        && var path := PathJoin(UploadFolder, fileUuid + "_" + secure(file.value.filename));
        && r == Ok(201, imageId)
        && images == old(images)[imageId := ImageRecord(email, path, ProcessedPath(path), [], now)]
        && imageOrder == old(imageOrder) + [imageId]
    {
      if email !in users {
        return Err(500, "KeyError");
      }
      var user := users[email];
      if user.subscription.None? {
        return Err(403, "Active subscription required");
      }
      if user.usage.imagesGenerated >= Quota(user.subscription.value.tier) {
        return Err(403, "Monthly image limit reached");
      }
      if file.None? {
        return Err(400, "No file provided");
      }
      if file.value.filename == "" {
        return Err(400, "No file selected");
      }
      var path := PathJoin(UploadFolder, fileUuid + "_" + secure(file.value.filename));
      if !readable {
        return Err(500, "cannot identify image file");
      }
      var rec := ImageRecord(email, path, ProcessedPath(path), [], now);
      UploadKeeps(users, images, imageOrder, imageId, rec);
      images := images[imageId := rec];
      imageOrder := imageOrder + [imageId];
      r := Ok(201, imageId);
    }

    /** The checks `generate_image` makes before calling the generator, in
        their order: both fields present, the image the caller's own, and a
        template scene or a non-empty custom prompt. */
    function GenerateRefusal(email: string, imageId: Option<string>, scene: Option<string>,
                             customPrompt: Option<string>): (r: Option<Response<Generation>>)
      reads this
      ensures r.None? <==> Truthy(imageId) && Truthy(scene) && imageId.value in images
                           && images[imageId.value].owner == email
                           && (scene.value in SceneTemplates || Truthy(customPrompt))
      ensures !Truthy(imageId) || !Truthy(scene) ==> r == Some(Err(400, "Image ID and scene are required"))
      ensures Truthy(imageId) && Truthy(scene) && (imageId.value !in images || images[imageId.value].owner != email) ==>
        r == Some(Err(404, "Image not found or access denied"))
    {
      if !Truthy(imageId) || !Truthy(scene) then Some(Err(400, "Image ID and scene are required"))
      else if imageId.value !in images || images[imageId.value].owner != email then
        Some(Err(404, "Image not found or access denied"))
      else if scene.value !in SceneTemplates && !Truthy(customPrompt) then Some(Err(400, "Invalid scene selected"))
      else None
    }

    /** The end of a successful generation: the entry appended to the image,
        one more picture on its owner's counter, and the answer, which reads
        the counter after the increment. */
    method Record(email: string, id: string, entry: GeneratedImage) returns (r: Response<Generation>)
      requires Valid() && id in images && images[id].owner == email
      modifies this
      ensures Valid() && imageOrder == old(imageOrder)
      ensures email in old(users)
      ensures images == WithEntry(old(images), id, entry)
      ensures users == Counted(old(users), email)
      ensures r == GenerationAnswer(old(users)[email], entry.id)
    {
      r := GenerationAnswer(users[email], entry.id);
      GenerateKeeps(users, images, imageOrder, id, entry);
      users := Counted(users, email);
      images := WithEntry(images, id, entry);
    }

    /** `generate_image`: `outcome` is the generator's saved path, or nothing
        when it raised. A success appends one entry and adds exactly one to
        the owner's counter, without looking at the quota again, and answers
        with the quota minus the counter, which can be negative. */
    method Generate(email: string, imageId: Option<string>, scene: Option<string>, customPrompt: Option<string>,
                    outcome: Option<string>, generatedId: string, now: int) returns (r: Response<Generation>)
      requires Valid()
      modifies this
      ensures Valid()
      ensures imageOrder == old(imageOrder)
      ensures old(GenerateRefusal(email, imageId, scene, customPrompt)).Some? ==>
        r == old(GenerateRefusal(email, imageId, scene, customPrompt)).value && unchanged(this)
      ensures old(GenerateRefusal(email, imageId, scene, customPrompt)).None? && outcome.None? ==>
        r.Err? && r.status == 500 && unchanged(this)
      ensures old(GenerateRefusal(email, imageId, scene, customPrompt)).None? && outcome.Some? ==>
        var id := imageId.value;
        var entry := GeneratedImage(generatedId, outcome.value, scene.value, ScenePrompt(scene.value, customPrompt), now);
        var u := old(users)[email];
        && email in old(users)
        && images == WithEntry(old(images), id, entry)
        && users == Counted(old(users), email)
        && (u.subscription.Some? ==>
              r == Ok(200, Generation(generatedId, Quota(u.subscription.value.tier) - (u.usage.imagesGenerated + 1))))
        && (u.subscription.None? ==> r.Err? && r.status == 500)
    {
      var refusal := GenerateRefusal(email, imageId, scene, customPrompt);
      if refusal.Some? {
        return refusal.value;
      }
      var id := imageId.value;
      if outcome.None? {
        return Err(500, "image generation failed");
      }
      var entry := GeneratedImage(generatedId, outcome.value, scene.value, ScenePrompt(scene.value, customPrompt), now);
      r := Record(email, id, entry);
    }

    /** `get_images`: the caller's images in insertion order. */
    method GetImages(email: string) returns (list: seq<ImageSummary>)
      requires Indexed(imageOrder, images)
      ensures var ids := OwnedIds(imageOrder, images, email);
        && |list| == |ids|
        && forall k | 0 <= k < |list| ::
             list[k] == ImageSummary(ids[k], images[ids[k]].createdAt, images[ids[k]].generated)
    {
      list := [];
      var i := 0;
      while i < |imageOrder|
        invariant 0 <= i <= |imageOrder|
        invariant Indexed(imageOrder[..i], images)
        invariant var ids := OwnedIds(imageOrder[..i], images, email);
          && |list| == |ids|
          && forall k | 0 <= k < |list| ::
               list[k] == ImageSummary(ids[k], images[ids[k]].createdAt, images[ids[k]].generated)
      {
        var id := imageOrder[i];
        OwnedIdsSnoc(imageOrder, i, images, email);
        if images[id].owner == email {
          list := list + [ImageSummary(id, images[id].createdAt, images[id].generated)];
        }
        i := i + 1;
      }
      assert imageOrder[..i] == imageOrder;
    }

    /** `get_image`: the record, to its owner only. */
    function GetImage(email: string, imageId: string): (r: Response<ImageRecord>)
      reads this
      ensures r.Ok? <==> imageId in images && images[imageId].owner == email
      ensures r.Ok? ==> r == Ok(200, images[imageId])
      ensures r.Err? ==> r == Err(404, "Image not found or access denied")
    {
      if imageId !in images || images[imageId].owner != email then Err(404, "Image not found or access denied")
      else Ok(200, images[imageId])
    }

    /** `download_image`: the path of the first generated entry of the
        caller's image with the requested id. */
    method Download(email: string, imageId: string, generatedId: string) returns (r: Response<string>)
      ensures (imageId !in images || images[imageId].owner != email) ==> r == Err(404, "Image not found or access denied")
      ensures imageId in images && images[imageId].owner == email && !HasId(images[imageId].generated, generatedId) ==>
        r == Err(404, "Generated image not found")
      ensures imageId in images && images[imageId].owner == email && HasId(images[imageId].generated, generatedId) ==>
        r.Ok? && r.status == 200
      ensures r.Ok? ==>
        && imageId in images && images[imageId].owner == email
        && var gens := images[imageId].generated;
           exists k | 0 <= k < |gens| :: gens[k].path == r.body && gens[k].id == generatedId
                                         && forall j | 0 <= j < k :: gens[j].id != generatedId
    {
      if imageId !in images || images[imageId].owner != email {
        return Err(404, "Image not found or access denied");
      }
      var found := FindGenerated(images[imageId].generated, generatedId);
      if found.None? {
        return Err(404, "Generated image not found");
      }
      r := Ok(200, found.value.path);
    }
  }

  /** A new free account with nothing used. */
  method SignUp(email: string) returns (store: Store)
    requires email != ""
    ensures fresh(store) && store.Valid() && "img1" !in store.images
    ensures email in store.users && store.users[email].subscription == Some(Subscription("free", 0, Days(30)))
    ensures store.users[email].usage.imagesGenerated == 0
  {
    store := new Store();
    var reg := store.Register(Some(email), Some("secret"), 0);
    assert Truthy(Some(email)) && Truthy(Some("secret"));
  }

  /** A new free account with one uploaded picture, `img1`. */
  method SignUpAndUpload(email: string) returns (store: Store)
    requires email != ""
    ensures fresh(store) && store.Valid()
    ensures "img1" in store.images && store.images["img1"].owner == email
    ensures email in store.users && store.users[email].subscription == Some(Subscription("free", 0, Days(30)))
    ensures store.users[email].usage.imagesGenerated == 0
  {
    store := SignUp(email);
    assert Quota("free") == 10;
    assert store.Admitted(email);
    var up := store.Upload(email, Some(FileUpload("lamp.png")), s => s, "u1", true, "img1", 0);
    assert up.Ok?;
  }

  /** One more kitchen picture of `img1` for a free account: the counter
      goes up by one and the answer reports the quota of 10 less it. */
  method GenerateOnce(store: Store, email: string) returns (remaining: int)
    requires store.Valid()
    requires "img1" in store.images && store.images["img1"].owner == email
    requires email in store.users && store.users[email].subscription == Some(Subscription("free", 0, Days(30)))
    modifies store
    ensures store.Valid()
    ensures "img1" in store.images && store.images["img1"].owner == email
    ensures email in store.users && store.users[email].subscription == Some(Subscription("free", 0, Days(30)))
    ensures store.users[email].usage.imagesGenerated == old(store.users[email].usage.imagesGenerated) + 1
    ensures remaining == 10 - store.users[email].usage.imagesGenerated
  {
    assert "kitchen" in SceneTemplates;
    assert store.GenerateRefusal(email, Some("img1"), Some("kitchen"), None).None?;
    var g := store.Generate(email, Some("img1"), Some("kitchen"), None, Some("out.png"), "g", 0);
    remaining := g.body.remainingImages;
  }

  /** The answer to `generate_image` is not clamped: a free account that
      uploads one picture while under its quota of 10 can generate eleven
      pictures from it, and the eleventh answer reports -1 images left. */
  method QuotaOvershoot() returns (remaining: int)
    ensures remaining == -1
  {
    var email := "shop@example.com";
    var store := SignUpAndUpload(email);
    var n := 0;
    remaining := 0;
    while n < 11
      invariant store.Valid()
      invariant 0 <= n <= 11
      invariant "img1" in store.images && store.images["img1"].owner == email
      invariant email in store.users && store.users[email].subscription == Some(Subscription("free", 0, Days(30)))
      invariant store.users[email].usage.imagesGenerated == n
      invariant n > 0 ==> remaining == 10 - n
    {
      remaining := GenerateOnce(store, email);
      n := n + 1;
    }
  }
}
