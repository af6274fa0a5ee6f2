/** src/screens/CreateProductScreen.tsx: the price typed as text, the checks
    `onSave` makes before anything is sent, the payload it sends, and the
    cache of the uploaded image URL. The upload itself and `createProduct` are
    remote calls whose outcomes are inputs. */
module CreateProduct {
  import opened Wrappers
  import opened Text

  /** `priceNumber`: the decimal value of the digits typed, every other
      character ignored; 0 when there is no digit. */
  function PriceNumber(text: string): nat {
    DecimalValue(OnlyDigits(text))
  }

  /** Typing a digit shifts the price one decimal place and adds it; typing
      anything else leaves the price as it was. */
  lemma PriceNumberSnoc(text: string, c: char)
    ensures IsDigit(c) ==> PriceNumber(text + [c]) == 10 * PriceNumber(text) + DigitValue(c)
    ensures !IsDigit(c) ==> PriceNumber(text + [c]) == PriceNumber(text)
  {
    OnlyDigitsSnoc(text, c);
    var ds := OnlyDigits(text + [c]);
    if IsDigit(c) {
      assert ds[..|ds| - 1] == OnlyDigits(text);
    }
  }

  /** Text without digits is worth 0. */
  lemma {:induction false} PriceNumberNoDigits(text: string)
    requires forall i :: 0 <= i < |text| ==> !IsDigit(text[i])
    ensures PriceNumber(text) == 0
  {
    if text != [] {
      var init := text[..|text| - 1];
      PriceNumberNoDigits(init);
      assert text == init + [text[|text| - 1]];
      PriceNumberSnoc(init, text[|text| - 1]);
    }
  }

  /** The numeral of any amount reads back as that amount. */
  lemma PriceNumberOfNumeral(n: nat)
    ensures PriceNumber(Decimal(n)) == n
  {
    OnlyDigitsOfDigits(Decimal(n));
    DecimalValueOfDecimal(n);
  }

  /** The body of `createProduct`. */
  datatype ProductPayload = ProductPayload(
    name: string,
    description: Option<string>,
    priceCents: nat,
    imageUrl: Option<string>)

  datatype SaveError = NameMissing | PriceMissing

  /** The outcome of the checks of `onSave`: the fields to send, or the first
      check that failed. */
  datatype SaveCheck = Accept(payload: ProductPayload) | Reject(error: SaveError)

  /** The checks of `onSave`, in order, and the fields it sends when they
      pass (the image URL is added after the upload). */
  function CheckSave(name: string, description: string, priceText: string): SaveCheck {
    var n := Trim(name);
    var d := Trim(description);
    if n == "" then Reject(NameMissing)
    else if PriceNumber(priceText) < 1 then Reject(PriceMissing)
    else Accept(ProductPayload(n, if d != "" then Some(d) else None, PriceNumber(priceText), None))
  }

  /** The form is refused exactly when the trimmed name is blank or the price
      is below 1 cent, the name being checked first; an accepted form sends
      the trimmed name, the trimmed description or nothing when it is blank,
      and the price read from the digits. */
  lemma CheckSaveDecides(name: string, description: string, priceText: string)
    ensures var r := CheckSave(name, description, priceText);
      && (r.Reject? <==> Trim(name) == "" || PriceNumber(priceText) < 1)
      && (r.Reject? ==> (r.error == NameMissing <==> Trim(name) == ""))
      && (r.Accept? ==>
        && r.payload.name == Trim(name) && r.payload.name != ""
        && r.payload.description == (if Trim(description) == "" then None else Some(Trim(description)))
        && r.payload.priceCents == PriceNumber(priceText) && r.payload.priceCents >= 1
        && r.payload.imageUrl == None)
  {
  }

  /** What `pickImage` obtained from the permission prompt and the picker. */
  datatype PickOutcome = Denied | Canceled | NoUri | Picked(uri: string) | PickFailed

  /** The first step of `uploadImageIfNeeded`. */
  datatype UploadStep = NoImage | Cached(url: string) | Uploading(uri: string)

  class ProductForm {
    var name: string
    var description: string
    var priceText: string
    var imageUri: Option<string>
    /** The URL of the uploaded image, reused until another image is picked. */
    var imageUrl: Option<string>
    var uploadingImage: bool
    var saving: bool
    /** The fields `onSave` checked and is about to send (its locals). */
    var pending: Option<ProductPayload>
    /** What `uploadImageIfNeeded` returned, or threw, during the current save
        (the local `finalImageUrl`, or the exception). */
    var imageStep: Option<Result<Option<string>>>
    /** The images sent to the upload service. */
    ghost var uploads: seq<string>
    /** The products sent to `createProduct`. */
    ghost var created: seq<ProductPayload>
    ghost var messages: nat

    constructor ()
      ensures name == "" && description == "" && priceText == "1990"
      ensures imageUri == None && imageUrl == None && !uploadingImage && !saving
      ensures pending == None && imageStep == None
      ensures uploads == [] && created == [] && messages == 0
    {
      name := "";
      description := "";
      priceText := "1990";
      imageUri := None;
      imageUrl := None;
      uploadingImage := false;
      saving := false;
      pending := None;
      imageStep := None;
      uploads := [];
      created := [];
      messages := 0;
    }

    /** `disabled`: the save button is inactive while saving or uploading. */
    predicate Disabled()
      reads this
    {
      saving || uploadingImage
    }

    /** `pickImage`: a non-empty URI replaces the image and drops its cached
        URL; a refusal, a cancellation, an empty URI or a failure changes
        neither, and only a refusal or a failure shows a message. */
    method PickImage(outcome: PickOutcome)
      modifies this`imageUri, this`imageUrl, this`messages
      ensures outcome.Picked? && outcome.uri != "" ==> imageUri == Some(outcome.uri) && imageUrl == None
      ensures !(outcome.Picked? && outcome.uri != "") ==> imageUri == old(imageUri) && imageUrl == old(imageUrl)
      ensures messages == old(messages) + (if outcome.Denied? || outcome.PickFailed? then 1 else 0)
    {
      match outcome {
        case Picked(uri) =>
          if uri != "" {
            imageUri := Some(uri);
            imageUrl := None;
          }
        case Denied => messages := messages + 1;
        case PickFailed => messages := messages + 1;
        case _ =>
      }
    }

    /** `uploadImageIfNeeded` up to its await, inside `onSave`: without a
        (non-empty) image it yields null, a non-empty cached URL is yielded
        without uploading, otherwise the upload starts. */
    method BeginUpload() returns (step: UploadStep)
      requires saving && !uploadingImage
      modifies this`uploadingImage, this`uploads, this`imageStep
      ensures !Truthy(imageUri) ==> step == NoImage && imageStep == Some(Ok(None))
      ensures Truthy(imageUri) && Truthy(imageUrl) ==>
        step == Cached(imageUrl.value) && imageStep == Some(Ok(Some(imageUrl.value)))
      ensures Truthy(imageUri) && !Truthy(imageUrl) ==>
        step == Uploading(imageUri.value) && imageStep == old(imageStep)
      ensures step.Uploading? ==> uploadingImage && uploads == old(uploads) + [step.uri]
      ensures !step.Uploading? ==> !uploadingImage && uploads == old(uploads)
    {
      if !Truthy(imageUri) {
        imageStep := Some(Ok(None));
        return NoImage;
      }
      if Truthy(imageUrl) {
        imageStep := Some(Ok(Some(imageUrl.value)));
        return Cached(imageUrl.value);
      }
      uploadingImage := true;
      uploads := uploads + [imageUri.value];
      step := Uploading(imageUri.value);
    }

    /** The upload settled: a URL is cached and yielded, an error is passed
        on, and `uploadingImage` is false either way. */
    method EndUpload(uploaded: Result<string>) returns (url: Result<Option<string>>)
      requires uploadingImage
      modifies this`uploadingImage, this`imageUrl, this`imageStep
      ensures !uploadingImage && imageStep == Some(url)
      ensures uploaded.Ok? ==> imageUrl == Some(uploaded.value) && url == Ok(Some(uploaded.value))
      ensures uploaded.Err? ==> imageUrl == old(imageUrl) && url == Err(uploaded.status)
    {
      match uploaded {
        case Ok(u) =>
          imageUrl := Some(u);
          url := Ok(Some(u));
        case Err(status) =>
          url := Err(status);
      }
      uploadingImage := false;
      imageStep := Some(url);
    }

    /** `onSave` up to the upload: a blank name or a price below 1 shows a
        message and sends nothing; otherwise saving starts with the checked
        fields pending. The model starts one save at a time: the save button
        is disabled meanwhile, but the keyboard's submit is not (see the
        README). */
    method BeginSave() returns (check: SaveCheck)
      requires !Disabled()
      modifies this`saving, this`messages, this`pending, this`imageStep
      ensures check == CheckSave(name, description, priceText)
      ensures check.Reject? ==> !saving && pending == None && messages == old(messages) + 1
      ensures check.Accept? ==> saving && pending == Some(check.payload) && messages == old(messages)
      ensures imageStep == None
    {
      check := CheckSave(name, description, priceText);
      imageStep := None;
      if check.Reject? {
        pending := None;
        messages := messages + 1;
        return;
      }
      pending := Some(check.payload);
      saving := true;
    }

    /** `onSave` after the upload step: when the upload step did not throw,
        the pending fields are sent with the image URL it yielded (or null);
        success or failure shows a message; `saving` is false afterwards. */
    method EndSave(createdOk: bool) returns (done: bool)
      requires saving && !uploadingImage && pending.Some? && imageStep.Some?
      modifies this`saving, this`created, this`messages, this`pending
      ensures !saving && pending == None
      ensures old(imageStep).value.Ok? ==>
        created == old(created) + [old(pending).value.(imageUrl := old(imageStep).value.value)]
      ensures old(imageStep).value.Err? ==> created == old(created)
      ensures done <==> old(imageStep).value.Ok? && createdOk
      ensures messages == old(messages) + 1
    {
      var image := imageStep.value;
      done := false;
      if image.Ok? {
        created := created + [pending.value.(imageUrl := image.value)];
        done := createdOk;
      }
      messages := messages + 1;
      saving := false;
      pending := None;
    }
  }
}
