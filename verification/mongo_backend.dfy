/** The database-backed server. Its `users` and `images` collections are
    maps (users by their unique e-mail, images by the lower-case text of
    their ObjectId) and the collection's natural order is a sequence;
    `$set`, `$push`, `$inc` and `$pull` become map and sequence updates.
    The JWT identity, the clock, the generated ids, the generator's outcome
    and whether an upload can be opened as a picture are parameters. */
module MongoBackend {
  import opened Base
  import opened Text
  import opened Records
  import opened Catalog
  import opened Ledger

  /** A document of the `users` collection, as far as this server reads it. */
  datatype User = User(email: string, passwordHash: Credential, firstName: string, lastName: string,
                       companyName: string, createdAt: int, subscription: Option<Subscription>, usage: Usage)

  datatype FileUpload = FileUpload(filename: string)

  datatype SubscriptionView = SubscriptionView(tier: string, startedAt: int, nextBillingDate: int,
                                               tierDetails: Plan, usage: Usage)

  /** A generated entry as the API returns it, with the URL it is served at. */
  datatype GeneratedView = GeneratedView(entry: GeneratedImage, url: string)

  /** One element of `get_images`' list. */
  datatype ImageSummary = ImageSummary(id: string, createdAt: int, generated: seq<GeneratedView>)

  /** `get_image`'s answer: the stored fields with URLs added. */
  datatype ImageView = ImageView(id: string, owner: string, originalPath: string, processedPath: string,
                                 createdAt: int, generated: seq<GeneratedView>,
                                 originalUrl: string, processedUrl: string)

  datatype Generation = Generation(generatedId: string, remainingImages: int)

  /** The values `to_json_serializable` is given: ObjectIds and datetimes
      become strings, anything else passes through. */
  datatype Value = ObjectIdValue(hex: string) | DateTime(time: int) | Text(text: string) | Number(n: int)

  /** `datetime.isoformat()`; the calendar text is not modelled, only that a
      datetime becomes some text determined by the instant. */
  function IsoFormat(time: int): string { "iso:" + IntText(time) }

  function IntText(n: int): string
    decreases if n < 0 then 1 - n else n
  {
    if n < 0 then "-" + IntText(-n)
    else if n < 10 then [('0' as int + n) as char]
    else IntText(n / 10) + [('0' as int + n % 10) as char]
  }

  /** `to_json_serializable`. */
  function ToJsonSerializable(v: Value): (r: Value)
    ensures r.Text? || r.Number?
    ensures v.ObjectIdValue? ==> r == Text(v.hex)
    ensures v.DateTime? ==> r.Text?
    ensures v.Text? || v.Number? ==> r == v
  {
    match v
    case ObjectIdValue(hex) => Text(hex)
    case DateTime(t) => Text(IsoFormat(t))
    case _ => v
  }

  /** Serialising a serialised value changes nothing. */
  lemma ToJsonSerializableIdempotent(v: Value)
    ensures ToJsonSerializable(ToJsonSerializable(v)) == ToJsonSerializable(v)
  {
  }

  /** `f"/{folder}/{os.path.basename(path)}"`: the URL a stored file is served at. */
  function ServedUrl(folder: string, path: string): (url: string)
    requires '/' !in folder
    ensures url == "/" + folder + "/" + AfterLast(path, '/')
  {
    "/" + folder + "/" + AfterLast(path, '/')
  }

  /** The served URL ends in the stored file's base name: the part after its
      last `/` is the part after the path's last `/`. */
  lemma ServedUrlName(folder: string, path: string)
    requires '/' !in folder
    ensures AfterLast(ServedUrl(folder, path), '/') == AfterLast(path, '/')
    ensures StartsWith(ServedUrl(folder, path), "/" + folder + "/")
  {
    AfterLastSegment(path, '/');
    AfterLastOf("/" + folder, '/', AfterLast(path, '/'));
  }

  /** A generated entry with `url = "/processed/" + basename(path)`. */
  function WithUrl(g: GeneratedImage): GeneratedView {
    GeneratedView(g, ServedUrl("processed", g.path))
  }

  /** The generated entries of an image, each with its URL. */
  function WithUrls(gens: seq<GeneratedImage>): (views: seq<GeneratedView>)
    ensures |views| == |gens|
  {
    if gens == [] then [] else WithUrls(gens[..|gens| - 1]) + [WithUrl(gens[|gens| - 1])]
  }

  /** Entry `j` of the list with URLs is entry `j` of the stored list, served
      from the processed folder under its base name. */
  lemma {:induction false} WithUrlsAt(gens: seq<GeneratedImage>, j: nat)
    requires j < |gens|
    ensures WithUrls(gens)[j].entry == gens[j]
    ensures WithUrls(gens)[j].url == "/processed/" + AfterLast(gens[j].path, '/')
  {
    if j < |gens| - 1 {
      WithUrlsAt(gens[..|gens| - 1], j);
    }
  }

  /** Every image is listed once in natural order and belongs to a known user,
      every stored tier is a catalog key, and no user's counter is below the
      number of generated pictures the user's images still hold (deletions
      do not give quota back). */
  ghost predicate Consistent(users: map<string, User>, images: map<string, ImageRecord>, order: seq<string>) {
    && Indexed(order, images)
    && Distinct(order)
    && (forall id | id in images :: id in order)
    && (forall id | id in images :: images[id].owner in users)
    && (forall e | e in users && users[e].subscription.Some? :: users[e].subscription.value.tier in SubscriptionTiers)
    && (forall e | e in users :: users[e].usage.imagesGenerated >= GeneratedBy(order, images, e))
  }

  lemma RegisterKeeps(users: map<string, User>, images: map<string, ImageRecord>, order: seq<string>,
                      email: string, u: User)
    requires Consistent(users, images, order)
    requires email !in users
    requires u.subscription.Some? ==> u.subscription.value.tier in SubscriptionTiers
    ensures Consistent(users[email := u], images, order)
  {
    GeneratedByNone(order, images, email);
  }

  lemma UploadKeeps(users: map<string, User>, images: map<string, ImageRecord>, order: seq<string>,
                    id: string, rec: ImageRecord)
    requires Consistent(users, images, order)
    requires id !in images && rec.owner in users && rec.generated == []
    ensures Consistent(users, images[id := rec], order + [id])
  {
    var images', order' := images[id := rec], order + [id];
    assert id !in order;
    DistinctSnoc(order, id);
    forall e | e in users
      ensures users[e].usage.imagesGenerated >= GeneratedBy(order', images', e)
    {
      GeneratedByAppend(order, images, id, rec, e);
    }
  }

  /** The accounts after one more picture is counted for `email`. */
  function Counted(users: map<string, User>, email: string): map<string, User>
    requires email in users
  {
    users[email := users[email].(usage := users[email].usage.(imagesGenerated := users[email].usage.imagesGenerated + 1))]
  }

  lemma GenerateKeeps(users: map<string, User>, images: map<string, ImageRecord>, order: seq<string>,
                      id: string, entry: GeneratedImage)
    requires Consistent(users, images, order)
    requires id in images
    ensures images[id].owner in users
    ensures Consistent(Counted(users, images[id].owner), WithEntry(images, id, entry), order)
  {
    var owner := images[id].owner;
    var users', images' := Counted(users, owner), WithEntry(images, id, entry);
    var rec := images'[id];
    assert Indexed(order, images');
    forall e | e in users'
      ensures users'[e].usage.imagesGenerated >= GeneratedBy(order, images', e)
    {
      GeneratedByUpdate(order, images, id, rec, e);
      if e != owner {
        assert Share(images[id], e) == 0 && Share(rec, e) == 0;
      }
    }
  }

  lemma DeleteImageKeeps(users: map<string, User>, images: map<string, ImageRecord>, order: seq<string>, id: string)
    requires Consistent(users, images, order)
    requires id in images
    ensures Consistent(users, images - {id}, Without(order, id))
  {
    var images' := images - {id};
    var order' := Without(order, id);
    forall e | e in users
      ensures Indexed(order', images') && users[e].usage.imagesGenerated >= GeneratedBy(order', images', e)
    {
      GeneratedByRemove(order, images, id, e);
    }
    GeneratedByRemove(order, images, id, id);
    assert forall x | x in images' :: x in order';
    assert forall x | x in images' :: images'[x].owner in users;
  }

  lemma DeleteGeneratedKeeps(users: map<string, User>, images: map<string, ImageRecord>, order: seq<string>,
                             id: string, images': map<string, ImageRecord>, generatedId: string)
    requires Consistent(users, images, order)
    requires id in images
    requires images' == images[id := images[id].(generated := RemoveKey(images[id].generated, GeneratedId, generatedId))]
    ensures Consistent(users, images', order)
  {
    var rec := images'[id];
    assert Indexed(order, images');
    forall e | e in users
      ensures users[e].usage.imagesGenerated >= GeneratedBy(order, images', e)
    {
      GeneratedByUpdate(order, images, id, rec, e);
      assert Share(rec, e) <= Share(images[id], e);
    }
  }

  /** The answer to a generation, given the owner's record from before the
      increment: the quota less the incremented counter, or a server error
      when the account has no subscription to look the quota up in. */
  function GenerationAnswer(u: User, generatedId: string): (r: Response<Generation>)
    requires u.subscription.Some? ==> u.subscription.value.tier in SubscriptionTiers
    ensures u.subscription.Some? ==>
      r.Ok? && r.status == 200 && r.body.generatedId == generatedId
      && r.body.remainingImages + u.usage.imagesGenerated + 1 == Quota(u.subscription.value.tier)
    ensures u.subscription.None? ==> r.Err? && r.status == 500
  {
    if u.subscription.None? then Err(500, "'NoneType' object is not subscriptable")
    else Ok(200, Generation(generatedId, Quota(u.subscription.value.tier) - (u.usage.imagesGenerated + 1)))
  }

  class Store {
    var users: map<string, User>
    var images: map<string, ImageRecord>
    /** The natural order of the `images` collection. */
    var imageOrder: seq<string>

    ghost predicate Valid()
      reads this
    {
      Consistent(users, images, imageOrder)
    }

    constructor ()
      ensures Valid()
      ensures users == map[] && images == map[] && imageOrder == []
    {
      users := map[];
      images := map[];
      imageOrder := [];
    }

    /** `register`: the profile names default to empty text; the account
        starts on the free tier with nothing used. */
    method Register(email: Option<string>, password: Option<string>, firstName: Option<string>,
                    lastName: Option<string>, companyName: Option<string>, now: int) returns (r: Response<AccessToken>)
      requires Valid()
      modifies this
      ensures Valid()
      ensures images == old(images) && imageOrder == old(imageOrder)
      ensures !Truthy(email) || !Truthy(password) ==>
        r == Err(400, "Email and password are required") && users == old(users)
      ensures Truthy(email) && Truthy(password) && email.value in old(users) ==>
        r == Err(400, "User already exists") && users == old(users)
      ensures Truthy(email) && Truthy(password) && email.value !in old(users) ==>
        && r == Ok(201, TokenFor(email.value))
        && users == old(users)[email.value := User(email.value, HashOf(password.value),
                                                   OrDefault(firstName, ""), OrDefault(lastName, ""),
                                                   OrDefault(companyName, ""), now,
                                                   Some(Subscription("free", now, now + Days(30))), Usage(0, now))]
    {
      if !Truthy(email) || !Truthy(password) {
        return Err(400, "Email and password are required");
      }
      var e := email.value;
      if e in users {
        return Err(400, "User already exists");
      }
      var u := User(e, HashOf(password.value), OrDefault(firstName, ""), OrDefault(lastName, ""),
                    OrDefault(companyName, ""), now, Some(Subscription("free", now, now + Days(30))), Usage(0, now));
      RegisterKeeps(users, images, imageOrder, e, u);
      users := users[e := u];
      r := Ok(201, TokenFor(e));
    }

    /** `subscribe`: `$set` of the subscription alone, so the usage counter
        carries over. The update reports no modification, and the route 500,
        when no account has the e-mail or the stored subscription already
        equals the new one. */
    method Subscribe(email: string, tier: Option<string>, now: int) returns (r: Response<string>)
      requires Valid()
      modifies this
      ensures Valid()
      ensures images == old(images) && imageOrder == old(imageOrder)
      ensures (tier.None? || tier.value !in SubscriptionTiers) ==>
        r == Err(400, "Invalid subscription tier") && users == old(users)
      ensures tier.Some? && tier.value in SubscriptionTiers ==>
        var s := Subscription(tier.value, now, now + Days(30));
        if email !in old(users) || old(users)[email].subscription == Some(s) then
          r == Err(500, "Failed to update subscription") && users == old(users)
        else
          && r == Ok(200, "Successfully subscribed to " + tier.value + " tier")
          && users == old(users)[email := old(users)[email].(subscription := Some(s))]
          && users[email].usage == old(users)[email].usage
    {
      if tier.None? || tier.value !in SubscriptionTiers {
        return Err(400, "Invalid subscription tier");
      }
      var s := Subscription(tier.value, now, now + Days(30));
      if email !in users || users[email].subscription == Some(s) {
        return Err(500, "Failed to update subscription");
      }
      users := users[email := users[email].(subscription := Some(s))];
      r := Ok(200, "Successfully subscribed to " + tier.value + " tier");
    }

    /** `get_subscription`: 404 for an unknown account, nothing when it has no
        subscription, otherwise the subscription with its catalog entry and
        the usage counter. */
    function GetSubscription(email: string): (r: Response<Option<SubscriptionView>>)
      requires Valid()
      reads this
      ensures email !in users <==> r == Err(404, "User not found")
      ensures r.Ok? ==> r.status == 200 && (r.body.None? <==> users[email].subscription.None?)
      ensures r.Ok? && r.body.Some? ==>
        var s := users[email].subscription.value;
        && r.body.value.tier == s.tier
        && r.body.value.startedAt == s.startedAt
        && r.body.value.nextBillingDate == s.nextBillingDate
        && r.body.value.tierDetails == SubscriptionTiers[s.tier]
        && r.body.value.usage == users[email].usage
    {
      if email !in users then Err(404, "User not found")
      else match users[email].subscription
        case None => Ok(200, None)
        case Some(s) => Ok(200, Some(SubscriptionView(s.tier, s.startedAt, s.nextBillingDate,
                                                      SubscriptionTiers[s.tier], users[email].usage)))
    }

    /** The account exists, has a subscription and has not reached its
        tier's quota: the upload gate is open. */
    predicate Admitted(email: string)
      requires Valid()
      reads this
    {
      && email in users && users[email].subscription.Some?
      && users[email].usage.imagesGenerated < Quota(users[email].subscription.value.tier)
    }

    /** `upload_image`: the quota gate. An unknown account, a missing
        subscription or a counter that has reached the tier's quota is refused
        before the file is looked at, and nothing is stored unless every check
        passes. `newId` is the id the database assigns to the new document. */
    method Upload(email: string, file: Option<FileUpload>, secure: string -> string, fileUuid: string,
                  readable: bool, newId: string, now: int) returns (r: Response<string>)
      requires Valid()
      requires IsObjectId(newId) && ObjectIdKey(newId) == newId && newId !in images
      modifies this
      ensures Valid()
      ensures users == old(users)
      ensures email !in users ==> r == Err(404, "User not found")
      ensures email in users && users[email].subscription.None? ==> r == Err(403, "Active subscription required")
      ensures email in users && users[email].subscription.Some?
              && users[email].usage.imagesGenerated >= Quota(users[email].subscription.value.tier)
              ==> r == Err(403, "Monthly image limit reached")
      ensures Admitted(email) && file.None? ==> r == Err(400, "No file provided")
      ensures Admitted(email) && file.Some? && file.value.filename == "" ==> r == Err(400, "No file selected")
      ensures Admitted(email) && file.Some? && file.value.filename != "" ==> (r.Ok? <==> readable)
      ensures r.Err? ==> images == old(images) && imageOrder == old(imageOrder)
      ensures r.Ok? ==>
        && Admitted(email) && file.Some? && file.value.filename != "" && readable
        && var path := PathJoin(UploadFolder, fileUuid + "_" + secure(file.value.filename));
        && r == Ok(201, newId)
        && images == old(images)[newId := ImageRecord(email, path, ProcessedPath(path), [], now)]
        && imageOrder == old(imageOrder) + [newId]
    {
      if email !in users {
        return Err(404, "User not found");
      }
      var user := users[email];
      if user.subscription.None? {
        return Err(403, "Active subscription required");
      }
      if user.usage.imagesGenerated >= Quota(user.subscription.value.tier) {
        return Err(403, "Monthly image limit reached");
      }
      if file.None? {
        return Err(400, "No file provided");
      }
      if file.value.filename == "" {
        return Err(400, "No file selected");
      }
      var path := PathJoin(UploadFolder, fileUuid + "_" + secure(file.value.filename));
      if !readable {
        return Err(500, "cannot identify image file");
      }
      var rec := ImageRecord(email, path, ProcessedPath(path), [], now);
      UploadKeeps(users, images, imageOrder, newId, rec);
      images := images[newId := rec];
      imageOrder := imageOrder + [newId];
      r := Ok(201, newId);
    }

    /** The lookup every image route starts with: a well-formed id of an
        image the caller owns. */
    function OwnedImage(email: string, imageId: string): (r: Response<string>)
      reads this
      ensures !IsObjectId(imageId) ==> r == Err(400, "Invalid image ID format")
      ensures IsObjectId(imageId) ==>
        (r.Ok? <==> ObjectIdKey(imageId) in images && images[ObjectIdKey(imageId)].owner == email)
      ensures r.Ok? ==> r.body == ObjectIdKey(imageId) && r.body in images
      ensures IsObjectId(imageId) && r.Err? ==> r == Err(404, "Image not found or access denied")
    {
      if !IsObjectId(imageId) then Err(400, "Invalid image ID format")
      else
        var key := ObjectIdKey(imageId);
        if key !in images || images[key].owner != email then Err(404, "Image not found or access denied")
        else Ok(200, key)
    }

    /** The checks `generate_image` makes before calling the generator, in
        their order. */
    function GenerateRefusal(email: string, imageId: Option<string>, scene: Option<string>,
                             customPrompt: Option<string>): (r: Option<Response<Generation>>)
      reads this
      ensures r.None? <==> Truthy(imageId) && Truthy(scene) && OwnedImage(email, imageId.value).Ok?
                           && (scene.value in SceneTemplates || Truthy(customPrompt))
      ensures !Truthy(imageId) || !Truthy(scene) ==> r == Some(Err(400, "Image ID and scene are required"))
      ensures Truthy(imageId) && Truthy(scene) && !IsObjectId(imageId.value) ==>
        r == Some(Err(400, "Invalid image ID format"))
    {
      if !Truthy(imageId) || !Truthy(scene) then Some(Err(400, "Image ID and scene are required"))
      else
        var found := OwnedImage(email, imageId.value);
        if found.Err? then Some(Err(found.status, found.message))
        else if scene.value !in SceneTemplates && !Truthy(customPrompt) then Some(Err(400, "Invalid scene selected"))
        else None
    }

    /** The end of a successful generation: the entry appended to the image,
        one more picture on its owner's counter, and the answer, which reads
        the counter after the increment. */
    method Record(email: string, id: string, entry: GeneratedImage) returns (r: Response<Generation>)
      requires Valid() && id in images && images[id].owner == email
      modifies this
      ensures Valid() && imageOrder == old(imageOrder)
      ensures email in old(users)
      ensures images == WithEntry(old(images), id, entry)
      ensures users == Counted(old(users), email)
      ensures r == GenerationAnswer(old(users)[email], entry.id)
    {
      r := GenerationAnswer(users[email], entry.id);
      GenerateKeeps(users, images, imageOrder, id, entry);
      users := Counted(users, email);
      images := WithEntry(images, id, entry);
    }

    /** `generate_image`: `$push` of one entry and `$inc` of the owner's
        counter by exactly one, with no second look at the quota; the answer
        is the quota minus the re-read counter, which can be negative. */
    method Generate(email: string, imageId: Option<string>, scene: Option<string>, customPrompt: Option<string>,
                    outcome: Option<string>, generatedId: string, now: int) returns (r: Response<Generation>)
      requires Valid()
      modifies this
      ensures Valid()
      ensures imageOrder == old(imageOrder)
      ensures old(GenerateRefusal(email, imageId, scene, customPrompt)).Some? ==>
        r == old(GenerateRefusal(email, imageId, scene, customPrompt)).value && unchanged(this)
      ensures old(GenerateRefusal(email, imageId, scene, customPrompt)).None? && outcome.None? ==>
        r.Err? && r.status == 500 && unchanged(this)
      ensures old(GenerateRefusal(email, imageId, scene, customPrompt)).None? && outcome.Some? ==>
        var id := ObjectIdKey(imageId.value);
        var entry := GeneratedImage(generatedId, outcome.value, scene.value, ScenePrompt(scene.value, customPrompt), now);
        var u := old(users)[email];
        && email in old(users)
        && images == WithEntry(old(images), id, entry)
        && users == Counted(old(users), email)
        && (u.subscription.Some? ==>
              r == Ok(200, Generation(generatedId, Quota(u.subscription.value.tier) - (u.usage.imagesGenerated + 1))))
        && (u.subscription.None? ==> r.Err? && r.status == 500)
    {
      var refusal := GenerateRefusal(email, imageId, scene, customPrompt);
      if refusal.Some? {
        return refusal.value;
      }
      var id := ObjectIdKey(imageId.value);
      if outcome.None? {
        return Err(500, "image generation failed");
      }
      var entry := GeneratedImage(generatedId, outcome.value, scene.value, ScenePrompt(scene.value, customPrompt), now);
      r := Record(email, id, entry);
    }

    /** The inner loop of `get_images` and `get_image`: a copy of each
        generated entry with its URL added. */
    static method AddUrls(gens: seq<GeneratedImage>) returns (views: seq<GeneratedView>)
      ensures views == WithUrls(gens)
    {
      views := [];
      var i := 0;
      while i < |gens|
        invariant 0 <= i <= |gens|
        invariant views == WithUrls(gens[..i])
      {
        assert gens[..i + 1][..i] == gens[..i];
        views := views + [WithUrl(gens[i])];
        i := i + 1;
      }
      assert gens[..i] == gens;
    }

    /** `get_images`: the caller's images in the collection's order, each
        generated entry with its URL. */
    method GetImages(email: string) returns (list: seq<ImageSummary>)
      requires Indexed(imageOrder, images)
      ensures var ids := OwnedIds(imageOrder, images, email);
        && |list| == |ids|
        && forall k | 0 <= k < |list| ::
             list[k] == ImageSummary(ids[k], images[ids[k]].createdAt, WithUrls(images[ids[k]].generated))
    {
      list := [];
      var i := 0;
      while i < |imageOrder|
        invariant 0 <= i <= |imageOrder|
        invariant Indexed(imageOrder[..i], images)
        invariant var ids := OwnedIds(imageOrder[..i], images, email);
          && |list| == |ids|
          && forall k | 0 <= k < |list| ::
               list[k] == ImageSummary(ids[k], images[ids[k]].createdAt, WithUrls(images[ids[k]].generated))
      {
        var id := imageOrder[i];
        OwnedIdsSnoc(imageOrder, i, images, email);
        if images[id].owner == email {
          var views := AddUrls(images[id].generated);
          list := list + [ImageSummary(id, images[id].createdAt, views)];
        }
        i := i + 1;
      }
      assert imageOrder[..i] == imageOrder;
    }

    /** `get_image`: the caller's image with `original_url`, `processed_url`
        and a `url` on every generated entry, each the serving folder plus the
        stored file's base name. */
    method GetImage(email: string, imageId: string) returns (r: Response<ImageView>)
      ensures OwnedImage(email, imageId).Err? ==>
        r == Err(OwnedImage(email, imageId).status, OwnedImage(email, imageId).message)
      ensures r.Ok? ==>
        var key := ObjectIdKey(imageId);
        var rec := images[key];
        && OwnedImage(email, imageId) == Ok(200, key)
        && r.status == 200 && r.body.id == key && r.body.owner == email
        && r.body.originalPath == rec.originalPath && r.body.processedPath == rec.processedPath
        && r.body.originalUrl == ServedUrl("uploads", rec.originalPath)
        && r.body.processedUrl == ServedUrl("processed", rec.processedPath)
        && r.body.generated == WithUrls(rec.generated)
      ensures OwnedImage(email, imageId).Ok? ==> r.Ok?
    {
      var found := OwnedImage(email, imageId);
      if found.Err? {
        return Err(found.status, found.message);
      }
      var rec := images[found.body];
      var views := AddUrls(rec.generated);
      r := Ok(200, ImageView(found.body, rec.owner, rec.originalPath, rec.processedPath, rec.createdAt, views,
                             ServedUrl("uploads", rec.originalPath), ServedUrl("processed", rec.processedPath)));
    }

    /** `download_image`: the path of the first generated entry of the
        caller's image with the requested id. */
    method Download(email: string, imageId: string, generatedId: string) returns (r: Response<string>)
      ensures OwnedImage(email, imageId).Err? ==>
        r == Err(OwnedImage(email, imageId).status, OwnedImage(email, imageId).message)
      ensures OwnedImage(email, imageId).Ok? && !HasId(images[ObjectIdKey(imageId)].generated, generatedId) ==>
        r == Err(404, "Generated image not found")
      ensures OwnedImage(email, imageId).Ok? && HasId(images[ObjectIdKey(imageId)].generated, generatedId) ==>
        r.Ok? && r.status == 200
      ensures r.Ok? ==>
        && OwnedImage(email, imageId).Ok?
        && var gens := images[ObjectIdKey(imageId)].generated;
           exists k | 0 <= k < |gens| :: gens[k].path == r.body && gens[k].id == generatedId
                                         && forall j | 0 <= j < k :: gens[j].id != generatedId
    {
      var found := OwnedImage(email, imageId);
      if found.Err? {
        return Err(found.status, found.message);
      }
      var hit := FindGenerated(images[found.body].generated, generatedId);
      if hit.None? {
        return Err(404, "Generated image not found");
      }
      r := Ok(200, hit.value.path);
    }

    /** `delete_one` of a stored image. */
    method Forget(key: string)
      requires Valid() && key in images
      modifies this
      ensures Valid() && users == old(users)
      ensures images == old(images) - {key} && imageOrder == Without(old(imageOrder), key)
    {
      DeleteImageKeeps(users, images, imageOrder, key);
      images := images - {key};
      imageOrder := Without(imageOrder, key);
    }

    /** `$pull` of every generated entry with the id from one image. */
    method Prune(key: string, generatedId: string)
      requires Valid() && key in images
      modifies this
      ensures Valid() && users == old(users) && imageOrder == old(imageOrder)
      ensures images == old(images)[key := old(images)[key].(generated := RemoveKey(old(images)[key].generated, GeneratedId, generatedId))]
    {
      var images' := images[key := images[key].(generated := RemoveKey(images[key].generated, GeneratedId, generatedId))];
      DeleteGeneratedKeeps(users, images, imageOrder, key, images', generatedId);
      images := images';
    }

    /** `delete_image`: the caller's image leaves the collection; the usage
        counter is not given back. Removing the files is not modelled. */
    method DeleteImage(email: string, imageId: string) returns (r: Response<string>)
      requires Valid()
      modifies this
      ensures Valid()
      ensures users == old(users)
      ensures old(OwnedImage(email, imageId)).Err? ==>
        r == Err(old(OwnedImage(email, imageId)).status, old(OwnedImage(email, imageId)).message) && unchanged(this)
      ensures old(OwnedImage(email, imageId)).Ok? ==>
        var key := ObjectIdKey(imageId);
        && r == Ok(200, "Image deleted successfully")
        && images == old(images) - {key}
        && imageOrder == Without(old(imageOrder), key)
    {
      var found := OwnedImage(email, imageId);
      if found.Err? {
        return Err(found.status, found.message);
      }
      Forget(found.body);
      r := Ok(200, "Image deleted successfully");
    }

    /** `delete_generated_image`: 404 unless some entry has the id; otherwise
        `$pull` removes every entry with that id and keeps the rest in order.
        The usage counter is not given back. */
    method DeleteGenerated(email: string, imageId: string, generatedId: string) returns (r: Response<string>)
      requires Valid()
      modifies this
      ensures Valid()
      ensures users == old(users) && imageOrder == old(imageOrder)
      ensures old(OwnedImage(email, imageId)).Err? ==>
        r == Err(old(OwnedImage(email, imageId)).status, old(OwnedImage(email, imageId)).message) && unchanged(this)
      ensures old(OwnedImage(email, imageId)).Ok? && !HasId(old(images)[ObjectIdKey(imageId)].generated, generatedId) ==>
        r == Err(404, "Generated image not found") && unchanged(this)
      ensures old(OwnedImage(email, imageId)).Ok? && HasId(old(images)[ObjectIdKey(imageId)].generated, generatedId) ==>
        var key := ObjectIdKey(imageId);
        && r == Ok(200, "Generated image deleted successfully")
        && images == old(images)[key := old(images)[key].(generated := RemoveKey(old(images)[key].generated, GeneratedId, generatedId))]
    {
      var found := OwnedImage(email, imageId);
      if found.Err? {
        return Err(found.status, found.message);
      }
      var key := found.body;
      var hit := FindGenerated(images[key].generated, generatedId);
      if hit.None? {
        return Err(404, "Generated image not found");
      }
      Prune(key, generatedId);
      r := Ok(200, "Generated image deleted successfully");
    }
  }
}
