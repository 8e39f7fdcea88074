/** The "sell an item" form: the category check that decides whether the form
    is shown, the image slots, the batch validator, the upload-or-reuse rule for
    images, the payload sent to the backend, and the `loading` lifecycle of a
    submission. Remote services are oracle parameters. */
module SellForm {
  import opened JsValues

  /** The form offers at most this many image upload widgets. */
  const MAX_IMAGE_SLOTS: nat := 12

  // ---------------------------------------------------------------------------
  // Category check

  /** One entry of the category catalog: a title and its sub-category items. */
  datatype CatalogEntry = CatalogEntry(title: string, items: seq<string>)

  predicate EntryMatches(e: CatalogEntry, category: string, item: string) {
    Lower(e.title) == Lower(category) || item in e.items
  }

  /** `categories.some(...)`: the route's category/item pair is known. */
  function IsValidCategory(catalog: seq<CatalogEntry>, category: string, item: string): (r: bool)
    ensures r <==> exists k :: 0 <= k < |catalog| && EntryMatches(catalog[k], category, item)
  {
    if catalog == [] then false
    else EntryMatches(catalog[0], category, item) || IsValidCategory(catalog[1..], category, item)
  }

  /** The category part of the check ignores the case of the route's category. */
  lemma CategoryCaseInsensitive(catalog: seq<CatalogEntry>, category: string, item: string)
    ensures IsValidCategory(catalog, Lower(category), item) == IsValidCategory(catalog, category, item)
  {
  }

  /** The two categories that ask for brand, model and vehicle type. */
  predicate IsVehicleCategory(category: string) {
    Lower(category) == "olx autos (cars)" || Lower(category) == "bikes"
  }

  // ---------------------------------------------------------------------------
  // The draft

  /** What an image field holds: nothing, a string (an already uploaded URL
      when it starts with "http"), or a browser File, identified by a number. */
  datatype Asset = NoAsset | StringAsset(s: string) | FileAsset(id: nat)

  /** JavaScript truthiness of an image field. */
  predicate AssetPresent(a: Asset) {
    match a
    case NoAsset => false
    case StringAsset(s) => s != ""
    case FileAsset(_) => true
  }

  /** A string starting with "http" is an uploaded URL and is kept as it is. */
  predicate Reusable(a: Asset) {
    a.StringAsset? && StartsWith(a.s, "http")
  }

  datatype Vehicle = Vehicle(brand: Option<string>, model: Option<string>, vehicleType: Option<string>)

  /** Everything the child widgets report to the form, except the image list. */
  datatype Draft = Draft(
    title: Option<string>,
    description: Option<string>,
    price: Value,
    location: string,
    address: string,
    addorloc: Option<string>,
    image: Asset,
    name: Option<string>,
    vehicleData: Vehicle,
    categoryData: map<string, string>)

  /** The initial state of the draft fields. */
  const EMPTY_DRAFT := Draft(None, None, Undefined, "", "", None, NoAsset, None,
                             Vehicle(None, None, None), map[])

  // ---------------------------------------------------------------------------
  // Validation

  /** One validation rule; each rule has one message. */
  datatype FormError =
    | MissingTitle | MissingDescription | MissingAddress | MissingFile
    | MissingName | MissingPrice | IncompleteVehicle

  function Message(e: FormError): string {
    match e
    case MissingTitle => "Please add title"
    case MissingDescription => "Please add description"
    case MissingAddress => "Please add address or location"
    case MissingFile => "Please upload a file"
    case MissingName => "Please add your name"
    case MissingPrice => "Please provide a price"
    case IncompleteVehicle => "Please complete all vehicle details"
  }

  /** Position of a rule in the order the form checks them. */
  function Rank(e: FormError): (r: nat)
    ensures r < RULE_COUNT
  {
    match e
    case MissingTitle => 0
    case MissingDescription => 1
    case MissingAddress => 2
    case MissingFile => 3
    case MissingName => 4
    case MissingPrice => 5
    case IncompleteVehicle => 6
  }

  /** The field chosen by the address-or-location mode is empty. */
  predicate AddressMissing(d: Draft) {
    (|d.address| == 0 && d.addorloc == Some("address")) ||
    (|d.location| == 0 && d.addorloc == Some("location"))
  }

  predicate VehicleIncomplete(v: Vehicle) {
    !Present(v.brand) || !Present(v.model) || !Present(v.vehicleType)
  }

  /** Whether the draft breaks the given rule. */
  predicate Violated(e: FormError, d: Draft, files: seq<Asset>, category: string) {
    match e
    case MissingTitle => !Present(d.title)
    case MissingDescription => !Present(d.description)
    case MissingAddress => AddressMissing(d)
    case MissingFile => |files| == 0
    case MissingName => !Present(d.name)
    case MissingPrice => !Truthy(d.price)
    case IncompleteVehicle => IsVehicleCategory(category) && VehicleIncomplete(d.vehicleData)
  }

  /** Strictly increasing in rank: the fixed order, and no rule twice. */
  ghost predicate InRuleOrder(errs: seq<FormError>) {
    forall i, j :: 0 <= i < j < |errs| ==> Rank(errs[i]) < Rank(errs[j])
  }

  const RULE_COUNT: nat := 7

  /** The rule of each rank, the inverse of `Rank`. */
  function RuleAt(k: nat): (e: FormError)
    requires k < RULE_COUNT
    ensures Rank(e) == k
  {
    if k == 0 then MissingTitle
    else if k == 1 then MissingDescription
    else if k == 2 then MissingAddress
    else if k == 3 then MissingFile
    else if k == 4 then MissingName
    else if k == 5 then MissingPrice
    else IncompleteVehicle
  }

  /** Which rules the draft breaks, by rank. */
  function Flags(d: Draft, files: seq<Asset>, category: string): (f: seq<bool>)
    ensures |f| == RULE_COUNT
  {
    [Violated(MissingTitle, d, files, category), Violated(MissingDescription, d, files, category),
     Violated(MissingAddress, d, files, category), Violated(MissingFile, d, files, category),
     Violated(MissingName, d, files, category), Violated(MissingPrice, d, files, category),
     Violated(IncompleteVehicle, d, files, category)]
  }

  lemma FlagsMeaning(d: Draft, files: seq<Asset>, category: string)
    ensures forall e :: Flags(d, files, category)[Rank(e)] == Violated(e, d, files, category)
  {
  }

  /** The reports of the first `n` rules, given which rules are broken. */
  function Reports(flags: seq<bool>, n: nat): seq<FormError>
    requires |flags| == RULE_COUNT && n <= RULE_COUNT
  {
    if n == 0 then []
    else Reports(flags, n - 1) + (if flags[n - 1] then [RuleAt(n - 1)] else [])
  }

  lemma {:induction false} ReportsMeaning(flags: seq<bool>, n: nat)
    requires |flags| == RULE_COUNT && n <= RULE_COUNT
    ensures forall e :: e in Reports(flags, n) <==> Rank(e) < n && flags[Rank(e)]
    ensures InRuleOrder(Reports(flags, n))
  {
    if n > 0 {
      ReportsMeaning(flags, n - 1);
      var prev := Reports(flags, n - 1);
      var s := Reports(flags, n);
      forall i, j | 0 <= i < j < |s| ensures Rank(s[i]) < Rank(s[j]) {
        if j >= |prev| {
          assert s[i] == prev[i] && prev[i] in prev;
        }
      }
      forall e ensures e in s <==> Rank(e) < n && flags[Rank(e)] {
        if Rank(e) == n - 1 && flags[n - 1] {
          assert e == RuleAt(n - 1) by { match e case _ => }
        }
      }
    }
  }

  /** The messages the form shows: one per broken rule, in the fixed order. */
  function Violations(d: Draft, files: seq<Asset>, category: string): seq<FormError> {
    Reports(Flags(d, files, category), RULE_COUNT)
  }

  /** A rule is reported exactly when the draft breaks it, and the reports
      come in the fixed rule order, none twice. */
  lemma ViolationsMeaning(d: Draft, files: seq<Asset>, category: string)
    ensures forall e :: e in Violations(d, files, category) <==> Violated(e, d, files, category)
    ensures InRuleOrder(Violations(d, files, category))
  {
    FlagsMeaning(d, files, category);
    ReportsMeaning(Flags(d, files, category), RULE_COUNT);
  }

  /** Every rule is checked: submission is allowed exactly when every
      required field is there. */
  lemma SubmitAllowedIff(d: Draft, files: seq<Asset>, category: string)
    ensures Violations(d, files, category) == [] <==>
      Present(d.title) && Present(d.description) && !AddressMissing(d) && |files| > 0 &&
      Present(d.name) && Truthy(d.price) &&
      (IsVehicleCategory(category) ==> !VehicleIncomplete(d.vehicleData))
  {
    var r := Violations(d, files, category);
    ViolationsMeaning(d, files, category);
    if r != [] {
      assert Violated(r[0], d, files, category);
    } else {
      assert MissingTitle !in r && MissingDescription !in r && MissingAddress !in r;
      assert MissingFile !in r && MissingName !in r && MissingPrice !in r && IncompleteVehicle !in r;
    }
  }

  /** A mode other than "address" and "location" never causes an address error. */
  lemma OtherModeNoAddressError(d: Draft, files: seq<Asset>, category: string)
    requires d.addorloc != Some("address") && d.addorloc != Some("location")
    ensures MissingAddress !in Violations(d, files, category)
  {
    ViolationsMeaning(d, files, category);
  }

  /** Only the two vehicle categories can get the vehicle error. */
  lemma VehicleErrorOnlyForVehicles(d: Draft, files: seq<Asset>, category: string)
    ensures IncompleteVehicle in Violations(d, files, category) <==>
      IsVehicleCategory(category) && VehicleIncomplete(d.vehicleData)
  {
    ViolationsMeaning(d, files, category);
  }

  /** The rule, as a one-element list if the draft breaks it. */
  function Check(e: FormError, d: Draft, files: seq<Asset>, category: string): seq<FormError> {
    if Violated(e, d, files, category) then [e] else []
  }

  /** The reports written out rule by rule, as the handler pushes them. */
  lemma ViolationsUnfold(d: Draft, files: seq<Asset>, category: string)
    ensures Violations(d, files, category) ==
      Check(MissingTitle, d, files, category) + Check(MissingDescription, d, files, category) +
      Check(MissingAddress, d, files, category) + Check(MissingFile, d, files, category) +
      Check(MissingName, d, files, category) + Check(MissingPrice, d, files, category) +
      Check(IncompleteVehicle, d, files, category)
  {
    var f := Flags(d, files, category);
    assert Reports(f, 1) == Check(MissingTitle, d, files, category);
    assert Reports(f, 2) == Reports(f, 1) + Check(MissingDescription, d, files, category);
    assert Reports(f, 3) == Reports(f, 2) + Check(MissingAddress, d, files, category);
    assert Reports(f, 4) == Reports(f, 3) + Check(MissingFile, d, files, category);
    assert Reports(f, 5) == Reports(f, 4) + Check(MissingName, d, files, category);
    assert Reports(f, 6) == Reports(f, 5) + Check(MissingPrice, d, files, category);
    assert Reports(f, 7) == Reports(f, 6) + Check(IncompleteVehicle, d, files, category);
  }

  /** The checks of the submit handler, one `push` per broken rule. */
  method CollectErrors(d: Draft, files: seq<Asset>, category: string) returns (errs: seq<FormError>)
    ensures errs == Violations(d, files, category)
  {
    errs := [];
    if Violated(MissingTitle, d, files, category) {
      errs := errs + [MissingTitle];
    }
    assert errs == Check(MissingTitle, d, files, category);
    ghost var before1 := errs;
    if Violated(MissingDescription, d, files, category) {
      errs := errs + [MissingDescription];
    }
    assert errs == before1 + Check(MissingDescription, d, files, category);
    ghost var before2 := errs;
    if Violated(MissingAddress, d, files, category) {
      errs := errs + [MissingAddress];
    }
    assert errs == before2 + Check(MissingAddress, d, files, category);
    ghost var before3 := errs;
    if Violated(MissingFile, d, files, category) {
      errs := errs + [MissingFile];
    }
    assert errs == before3 + Check(MissingFile, d, files, category);
    ghost var before4 := errs;
    if Violated(MissingName, d, files, category) {
      errs := errs + [MissingName];
    }
    assert errs == before4 + Check(MissingName, d, files, category);
    ghost var before5 := errs;
    if Violated(MissingPrice, d, files, category) {
      errs := errs + [MissingPrice];
    }
    assert errs == before5 + Check(MissingPrice, d, files, category);
    ghost var before6 := errs;
    if Violated(IncompleteVehicle, d, files, category) {
      errs := errs + [IncompleteVehicle];
    }
    assert errs == before6 + Check(IncompleteVehicle, d, files, category);
    ViolationsUnfold(d, files, category);
  }

  // ---------------------------------------------------------------------------
  // Upload-or-reuse and the payload

  /** The URL an image field ends up as: kept when it is already a URL,
      otherwise whatever the asset host's upload returns (None: it failed). */
  function Resolve(a: Asset, upload: Asset -> Option<string>): (r: Option<string>)
    ensures Reusable(a) ==> r == Some(a.s)
    ensures !Reusable(a) ==> r == upload(a)
  {
    if a.StringAsset? && StartsWith(a.s, "http") then Some(a.s) else upload(a)
  }

  /** The image URLs, in the order of the files; any failed upload fails all. */
  function PicUrls(files: seq<Asset>, upload: Asset -> Option<string>): (r: Option<seq<string>>)
    ensures r.Some? <==> forall i :: 0 <= i < |files| ==> Resolve(files[i], upload).Some?
    ensures r.Some? ==> |r.value| == |files|
    ensures r.Some? ==> forall i :: 0 <= i < |files| ==> Resolve(files[i], upload) == Some(r.value[i])
  {
    if files == [] then Some([])
    else
      match Resolve(files[0], upload)
      case None => None
      case Some(url) =>
        match PicUrls(files[1..], upload)
        case None => None
        case Some(urls) => Some([url] + urls)
  }

  /** The profile picture's URL: "" when there is none. */
  function ProfileUrl(image: Asset, upload: Asset -> Option<string>): (r: Option<string>)
    ensures !AssetPresent(image) ==> r == Some("")
    ensures AssetPresent(image) && Reusable(image) ==> r == Some(image.s)
    ensures AssetPresent(image) && !Reusable(image) ==> r == upload(image)
  {
    if AssetPresent(image) then Resolve(image, upload) else Some("")
  }

  /** The image files that are sent to the asset host, in order. */
  function PendingUploads(files: seq<Asset>): (r: seq<Asset>)
    ensures |r| <= |files|
  {
    if files == [] then []
    else (if Reusable(files[0]) then [] else [files[0]]) + PendingUploads(files[1..])
  }

  /** Exactly the images that are not http strings are sent. */
  lemma {:induction false} PendingUploadsMembers(files: seq<Asset>)
    ensures forall a :: a in PendingUploads(files) <==> a in files && !Reusable(a)
  {
    if files != [] {
      PendingUploadsMembers(files[1..]);
      assert files == [files[0]] + files[1..];
    }
  }

  /** Uploading follows the files: one upload per entry that is not an http
      string, in file order, so a file listed twice is sent twice. */
  lemma {:induction false} PendingUploadsAppend(xs: seq<Asset>, ys: seq<Asset>)
    ensures PendingUploads(xs + ys) == PendingUploads(xs) + PendingUploads(ys)
  {
    if xs == [] {
      assert xs + ys == ys;
    } else {
      var zs := xs + ys;
      var head := if Reusable(xs[0]) then [] else [xs[0]];
      assert PendingUploads(zs) == head + PendingUploads(xs[1..] + ys) by {
        assert zs[0] == xs[0] && zs[1..] == xs[1..] + ys;
      }
      assert PendingUploads(xs) == head + PendingUploads(xs[1..]);
      PendingUploadsAppend(xs[1..], ys);
      assert head + (PendingUploads(xs[1..]) + PendingUploads(ys))
          == (head + PendingUploads(xs[1..])) + PendingUploads(ys);
    }
  }

  /** A single entry is uploaded exactly when it is not an http string. */
  lemma PendingUploadsOne(a: Asset)
    ensures PendingUploads([a]) == (if Reusable(a) then [] else [a])
  {
    assert [a][1..] == [];
  }

  /** Every upload the submission starts: all pending image files at once,
      then the profile picture if the images succeeded and it needs one. */
  function UploadCalls(files: seq<Asset>, image: Asset, upload: Asset -> Option<string>): seq<Asset> {
    PendingUploads(files) +
    (if PicUrls(files, upload).Some? && AssetPresent(image) && !Reusable(image) then [image] else [])
  }

  /** Re-submitting never sends an already uploaded URL to the asset host. */
  lemma UploadCallsSkipUrls(files: seq<Asset>, image: Asset, upload: Asset -> Option<string>)
    ensures forall a :: a in UploadCalls(files, image, upload) ==> !Reusable(a)
  {
    PendingUploadsMembers(files);
  }

  /** When every image is already a URL, nothing is uploaded and the URLs are
      the strings themselves, whatever the asset host would do. */
  lemma {:induction false} AllUrlsUploadNothing(files: seq<Asset>, image: Asset, upload: Asset -> Option<string>)
    requires forall i :: 0 <= i < |files| ==> Reusable(files[i])
    requires !AssetPresent(image) || Reusable(image)
    ensures UploadCalls(files, image, upload) == []
    ensures PicUrls(files, upload) == Some(seq(|files|, i requires 0 <= i < |files| && Reusable(files[i]) => files[i].s))
    ensures ProfileUrl(image, upload) == Some(if AssetPresent(image) then image.s else "")
  {
    var urls := seq(|files|, i requires 0 <= i < |files| && Reusable(files[i]) => files[i].s);
    var r := PicUrls(files, upload);
    assert r.Some?;
    assert r.value == urls;
    PendingUploadsMembers(files);
    if PendingUploads(files) != [] {
      assert PendingUploads(files)[0] in PendingUploads(files);
    }
  }

  /** The images as the URLs they resolved to. */
  function AsUrls(urls: seq<string>): (r: seq<Asset>)
    ensures |r| == |urls|
    ensures forall i :: 0 <= i < |urls| ==> r[i] == StringAsset(urls[i])
  {
    seq(|urls|, i requires 0 <= i < |urls| => StringAsset(urls[i]))
  }

  /** The point of upload-or-reuse: a list of http URLs, such as the one a
      successful submission produced, resolves to itself with no upload,
      whatever the asset host would answer now. */
  lemma ResubmitReusesUrls(urls: seq<string>, upload: Asset -> Option<string>)
    requires forall i :: 0 <= i < |urls| ==> StartsWith(urls[i], "http")
    ensures PicUrls(AsUrls(urls), upload) == Some(urls)
    ensures PendingUploads(AsUrls(urls)) == []
  {
    var again := AsUrls(urls);
    AllUrlsUploadNothing(again, NoAsset, upload);
    assert seq(|again|, i requires 0 <= i < |again| && Reusable(again[i]) => again[i].s) == urls;
  }

  /** The same for the profile picture: an http URL is kept as it is and is
      never among the uploads of a submission. */
  lemma ResubmitReusesProfileUrl(p: string, upload: Asset -> Option<string>, files: seq<Asset>)
    requires StartsWith(p, "http")
    ensures ProfileUrl(StringAsset(p), upload) == Some(p)
    ensures StringAsset(p) !in UploadCalls(files, StringAsset(p), upload)
  {
    PendingUploadsMembers(files);
  }

  /** The route's category and item (the URL path of the form). */
  datatype Route = Route(category: string, item: string)

  /** The body of the `add_product` request; field names as the backend spells them. */
  datatype Product = Product(
    title: Option<string>,
    description: Option<string>,
    address: string,
    price: Value,
    uploadedFiles: seq<string>,
    image: string,
    name: Option<string>,
    catagory: string,
    subcatagory: string,
    vehicleData: Vehicle,
    categoryData: map<string, string>)

  function ProductData(d: Draft, route: Route, picUrls: seq<string>, profileUrl: string): Product {
    Product(d.title, d.description,
            if d.addorloc == Some("address") then d.address else d.location,
            d.price, picUrls, profileUrl, d.name, route.category, route.item,
            d.vehicleData, d.categoryData)
  }

  /** How a submission that passed validation ends. */
  datatype Outcome = UploadFailed | Rejected(payload: Product) | Posted(payload: Product)

  /** Upload-or-reuse every image, then the profile picture, compose the
      payload and post it; `accept` is the backend's answer to that post. */
  function Submission(d: Draft, files: seq<Asset>, route: Route,
                      upload: Asset -> Option<string>, accept: Product -> bool): Outcome
  {
    match PicUrls(files, upload)
    case None => UploadFailed
    case Some(urls) =>
      match ProfileUrl(d.image, upload)
      case None => UploadFailed
      case Some(profile) =>
        var p := ProductData(d, route, urls, profile);
        if accept(p) then Posted(p) else Rejected(p)
  }

  /** What a submission posts and when it fails. */
  lemma SubmissionPayload(d: Draft, files: seq<Asset>, route: Route,
                          upload: Asset -> Option<string>, accept: Product -> bool)
    ensures var o := Submission(d, files, route, upload, accept);
      (o.UploadFailed? <==>
        (exists i :: 0 <= i < |files| && Resolve(files[i], upload).None?) ||
        ProfileUrl(d.image, upload).None?) &&
      (!o.UploadFailed? ==>
        var p := o.payload;
        (o.Posted? <==> accept(p)) &&
        p.address == (if d.addorloc == Some("address") then d.address else d.location) &&
        p.catagory == route.category && p.subcatagory == route.item &&
        p.title == d.title && p.description == d.description && p.price == d.price &&
        p.name == d.name && p.vehicleData == d.vehicleData && p.categoryData == d.categoryData &&
        |p.uploadedFiles| == |files| &&
        (forall i :: 0 <= i < |files| ==> Resolve(files[i], upload) == Some(p.uploadedFiles[i])) &&
        (forall i :: 0 <= i < |files| && Reusable(files[i]) ==> p.uploadedFiles[i] == files[i].s) &&
        Some(p.image) == ProfileUrl(d.image, upload))
  {
  }

  // ---------------------------------------------------------------------------
  // The form component's state

  /** The values of `loading`: "" (`Idle`), "post" (`Posting`) and
      "redirect" (`Redirecting`). */
  datatype Loading = Idle | Posting | Redirecting

  /** Each change of `loading` either enters "post" or leaves it. */
  predicate Step(a: Loading, b: Loading) {
    (a != Posting && b == Posting) || (a == Posting && b != Posting)
  }

  /** The upload widget the "Add Image" button appends; its key is its index. */
  datatype Slot = Slot(key: nat)

  /** What the component renders. */
  datatype View = NotFound | Spinner | FormView(vehicleDetails: bool)

  class FormState {
    const route: Route
    const catalog: seq<CatalogEntry>
    var formInputs: seq<Slot>
    var uploadedFiles: seq<Asset>
    var draft: Draft
    var loading: Loading
    /** Every value `loading` has been given, starting with the initial "". */
    ghost var loadingLog: seq<Loading>

    ghost predicate Valid()
      reads this
    {
      |formInputs| <= MAX_IMAGE_SLOTS &&
      (forall i :: 0 <= i < |formInputs| ==> formInputs[i].key == i) &&
      |loadingLog| > 0 && loadingLog[0] == Idle &&
      loadingLog[|loadingLog| - 1] == loading &&
      (forall i :: 0 < i < |loadingLog| ==> Step(loadingLog[i - 1], loadingLog[i])) &&
      // a submission runs to its end inside one handler call
      loading != Posting
    }

    constructor (route: Route, catalog: seq<CatalogEntry>)
      ensures Valid()
      ensures this.route == route && this.catalog == catalog
      ensures formInputs == [] && uploadedFiles == [] && draft == EMPTY_DRAFT
      ensures loading == Idle && loadingLog == [Idle]
    {
      this.route := route;
      this.catalog := catalog;
      formInputs := [];
      uploadedFiles := [];
      draft := EMPTY_DRAFT;
      loading := Idle;
      loadingLog := [Idle];
    }

    /** The not-found view for an unknown category, the spinner while posting,
        and otherwise the form, with vehicle details for vehicle categories. */
    function Render(): (v: View)
      reads this
      ensures v == NotFound <==>
        forall k :: 0 <= k < |catalog| ==> !EntryMatches(catalog[k], route.category, route.item)
      ensures v == Spinner ==> loading == Posting
      ensures Valid() ==> v != Spinner
      ensures v.FormView? ==>
        v.vehicleDetails == (Lower(route.category) in ["olx autos (cars)", "bikes"])
    {
      if !IsValidCategory(catalog, route.category, route.item) then NotFound
      else if loading == Posting then Spinner
      else FormView(IsVehicleCategory(route.category))
    }

    /** "Add Image": one more upload widget, unless there are already 12. */
    method HandleAddForm()
      requires Valid()
      modifies this`formInputs
      ensures Valid()
      ensures |old(formInputs)| < MAX_IMAGE_SLOTS ==>
        formInputs == old(formInputs) + [Slot(|old(formInputs)|)]
      ensures |old(formInputs)| >= MAX_IMAGE_SLOTS ==> formInputs == old(formInputs)
    {
      if |formInputs| < MAX_IMAGE_SLOTS {
        formInputs := formInputs + [Slot(|formInputs|)];
      }
    }

    /** A widget reported a file: it is appended to the list. */
    method HandleFileChange(file: Asset)
      requires Valid()
      modifies this`uploadedFiles
      ensures Valid()
      ensures uploadedFiles == old(uploadedFiles) + [file]
    {
      uploadedFiles := uploadedFiles + [file];
    }

    method HandlePriceChange(price: Value)
      requires Valid()
      modifies this`draft
      ensures Valid()
      ensures draft == old(draft).(price := price)
    {
      draft := draft.(price := price);
    }

    method HandleAddressChange(location: string, address: string, addorloc: Option<string>)
      requires Valid()
      modifies this`draft
      ensures Valid()
      ensures draft == old(draft).(location := location, address := address, addorloc := addorloc)
    {
      draft := draft.(location := location, address := address, addorloc := addorloc);
    }

    method HandleDetailsChange(title: Option<string>, description: Option<string>)
      requires Valid()
      modifies this`draft
      ensures Valid()
      ensures draft == old(draft).(title := title, description := description)
    {
      draft := draft.(title := title, description := description);
    }

    method HandleVehicleDataChange(data: Vehicle)
      requires Valid()
      modifies this`draft
      ensures Valid()
      ensures draft == old(draft).(vehicleData := data)
    {
      draft := draft.(vehicleData := data);
    }

    method HandleCategoryDataChange(data: map<string, string>)
      requires Valid()
      modifies this`draft
      ensures Valid()
      ensures draft == old(draft).(categoryData := data)
    {
      draft := draft.(categoryData := data);
    }

    method HandleNameSelect(name: Option<string>)
      requires Valid()
      modifies this`draft
      ensures Valid()
      ensures draft == old(draft).(name := name)
    {
      draft := draft.(name := name);
    }

    method HandleImageSelect(image: Asset)
      requires Valid()
      modifies this`draft
      ensures Valid()
      ensures draft == old(draft).(image := image)
    {
      draft := draft.(image := image);
    }

    method SetLoading(l: Loading)
      modifies this`loading, this`loadingLog
      ensures loading == l && loadingLog == old(loadingLog) + [l]
    {
      loading := l;
      loadingLog := loadingLog + [l];
    }

    /** Submit: validate in full; if anything is missing, report all of it and
        change nothing. Otherwise go to "post", upload what is not yet a URL,
        post the payload, and end in "redirect" on success or "" on failure.
        Returns the broken rules, the uploads started and the payload posted. */
    method HandleSubmit(upload: Asset -> Option<string>, accept: Product -> bool)
      returns (errs: seq<FormError>, uploads: seq<Asset>, sent: Option<Product>)
      requires Valid()
      modifies this`loading, this`loadingLog
      ensures Valid()
      ensures errs == Violations(draft, uploadedFiles, route.category)
      ensures errs != [] ==>
        uploads == [] && sent == None &&
        loading == old(loading) && loadingLog == old(loadingLog)
      ensures errs == [] ==>
        var o := Submission(draft, uploadedFiles, route, upload, accept);
        uploads == UploadCalls(uploadedFiles, draft.image, upload) &&
        sent == (if o.UploadFailed? then None else Some(o.payload)) &&
        loading == (if o.Posted? then Redirecting else Idle) &&
        loadingLog == old(loadingLog) + [Posting, loading]
    {
      errs := CollectErrors(draft, uploadedFiles, route.category);
      if errs != [] {
        uploads, sent := [], None;
        return;
      }
      SetLoading(Posting);
      uploads := PendingUploads(uploadedFiles);
      var picUrls := PicUrls(uploadedFiles, upload);
      if picUrls.None? {
        sent := None;
        SetLoading(Idle);
        return;
      }
      if AssetPresent(draft.image) && !Reusable(draft.image) {
        uploads := uploads + [draft.image];
      }
      var profileUrl := ProfileUrl(draft.image, upload);
      if profileUrl.None? {
        sent := None;
        SetLoading(Idle);
        return;
      }
      var productData := ProductData(draft, route, picUrls.value, profileUrl.value);
      sent := Some(productData);
      if accept(productData) {
        SetLoading(Redirecting);
      } else {
        SetLoading(Idle);
      }
    }
  }

  /** A draft that fills every field leaves any non-vehicle category with
      nothing to report. */
  lemma CompleteDraftPasses(d: Draft, files: seq<Asset>, category: string)
    requires Present(d.title) && Present(d.description) && Present(d.name) && Truthy(d.price)
    requires |files| > 0 && !AddressMissing(d) && !IsVehicleCategory(category)
    ensures Violations(d, files, category) == []
  {
    SubmitAllowedIff(d, files, category);
  }
}
