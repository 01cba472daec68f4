/**
 * The add-clothing form: its initial values, the client-side checks on the
 * chosen image and on submit, and how a submit ends.
 */
module AddClothing {
  import opened Wrappers
  import opened Text
  import opened Domain
  import ClothingsApi

  /** The form's seven text inputs; each select holds an option's value. */
  datatype ClothingFormData = ClothingFormData(
    name: string,
    category: string,
    color: string,
    brand: string,
    size: string,
    season: string,
    tags: string)

  datatype FormField = Name | CategoryField | Color | Brand | Size | SeasonField | Tags

  /** The form on first render: the category select on `TOP`, the season select on `ALL_SEASON`. */
  function InitialForm(): (r: ClothingFormData)
    ensures ParseCategory(r.category) == Some(Top) && ParseSeason(r.season) == Some(AllSeason)
    ensures r.name == "" && r.color == "" && r.brand == "" && r.size == "" && r.tags == ""
  {
    ClothingFormData("", "TOP", "", "", "", "ALL_SEASON", "")
  }

  /** The value of one input. */
  function Field(form: ClothingFormData, field: FormField): string
  {
    match field
    case Name => form.name
    case CategoryField => form.category
    case Color => form.color
    case Brand => form.brand
    case Size => form.size
    case SeasonField => form.season
    case Tags => form.tags
  }

  /** `handleInputChange`: `{ ...prev, [field]: value }`. */
  function WithField(form: ClothingFormData, field: FormField, value: string): (r: ClothingFormData)
    ensures Field(r, field) == value
    ensures forall other :: other != field ==> Field(r, other) == Field(form, other)
  {
    match field
    case Name => form.(name := value)
    case CategoryField => form.(category := value)
    case Color => form.(color := value)
    case Brand => form.(brand := value)
    case Size => form.(size := value)
    case SeasonField => form.(season := value)
    case Tags => form.(tags := value)
  }

  /** The values the category select offers, in display order. */
  const CategoryOptions: seq<string> :=
    ["TOP", "BOTTOM", "DRESS", "SHOES", "HAT", "ACCESSORY", "OUTERWEAR", "UNDERWEAR", "SOCKS", "BAG"]

  /** The values the season select offers, in display order. */
  const SeasonOptions: seq<string> := ["SPRING", "SUMMER", "AUTUMN", "WINTER", "ALL_SEASON"]

  /** The category select offers exactly the ten categories, each once. */
  lemma CategoryOptionsAreTheCategories()
    ensures forall v :: v in CategoryOptions <==> ParseCategory(v).Some?
    ensures forall i, j :: 0 <= i < j < |CategoryOptions| ==> CategoryOptions[i] != CategoryOptions[j]
  {
    forall v | ParseCategory(v).Some?
      ensures v in CategoryOptions
    {
      var c := ParseCategory(v).value;
      match c
      case Top => case Bottom => case Dress => case Shoes => case Hat =>
      case Accessory => case Outerwear => case Underwear => case Socks => case Bag =>
    }
  }

  /** The season select offers exactly the five seasons, each once. */
  lemma SeasonOptionsAreTheSeasons()
    ensures forall v :: v in SeasonOptions <==> ParseSeason(v).Some?
    ensures forall i, j :: 0 <= i < j < |SeasonOptions| ==> SeasonOptions[i] != SeasonOptions[j]
  {
    forall v | ParseSeason(v).Some?
      ensures v in SeasonOptions
    {
      var s := ParseSeason(v).value;
      match s
      case Spring => case Summer => case Autumn => case Winter => case AllSeason =>
    }
  }

  /** Why `handleSubmit` stops before sending. */
  datatype SubmitError = NoFile | BlankName | BlankColor
  {
    function Message(): string
    {
      match this
      case NoFile => "请选择要上传的图片"
      case BlankName => "请输入衣物名称"
      case BlankColor => "请选择颜色"
    }
  }

  /**
   * The checks of `handleSubmit`, in order: a chosen image, a name that is
   * not blank once trimmed, a color that is not blank once trimmed.
   */
  function SubmitCheck(file: Option<ImageFile>, form: ClothingFormData): (r: Option<SubmitError>)
    ensures r.None? <==> file.Some? && !IsBlank(form.name) && !IsBlank(form.color)
    ensures file.None? ==> r == Some(NoFile)
    ensures file.Some? && IsBlank(form.name) ==> r == Some(BlankName)
    ensures file.Some? && !IsBlank(form.name) && IsBlank(form.color) ==> r == Some(BlankColor)
  {
    if file.None? then Some(NoFile)
    else if Trim(form.name) == "" then Some(BlankName)
    else if Trim(form.color) == "" then Some(BlankColor)
    else None
  }

  /** The `data` part sent: `JSON.stringify(formData)`, so every field is present, empty or not. */
  function Body(form: ClothingFormData): (r: ClothingsApi.ClothingBody)
    ensures r.name == form.name && r.category == form.category && r.color == form.color
    ensures r.brand == Some(form.brand) && r.size == Some(form.size)
    ensures r.season == Some(form.season) && r.tags == Some(form.tags)
  {
    ClothingsApi.ClothingBody(form.name, form.category, form.color, Some(form.brand), Some(form.size), Some(form.season), Some(form.tags))
  }

  /** The multipart request: the image and the form data. */
  datatype Submission = Submission(image: ImageFile, data: ClothingsApi.ClothingBody)

  /** How the request ends. */
  datatype SubmitOutcome =
    | Created
      /** A non-2xx answer, with the `error` field of its body if it has a non-empty one. */
    | Refused(serverError: Option<string>)
      /** The request or the body parse threw; `message` is `None` when the thrown value is not an `Error`. */
    | Threw(message: Option<string>)

  /** The message shown after a failed submit. */
  function FailureMessage(outcome: SubmitOutcome): (r: string)
    requires !outcome.Created?
    ensures outcome.Refused? && Truthy(outcome.serverError) ==> r == outcome.serverError.value
    ensures outcome.Refused? && !Truthy(outcome.serverError) ==> r == "上传失败"
    ensures outcome.Threw? && outcome.message.Some? ==> r == outcome.message.value
    ensures outcome.Threw? && outcome.message.None? ==> r == "上传失败，请稍后重试"
    ensures r != ""  || (outcome.Threw? && outcome.message == Some(""))
  {
    match outcome
    case Refused(e) => if Truthy(e) then e.value else "上传失败"
    case Threw(m) => if m.Some? then m.value else "上传失败，请稍后重试"
  }

  /**
   * A submit the form lets through, with an image the form accepted and both
   * selects on one of their options, passes every check of the upload route.
   */
  lemma AcceptedSubmitPassesUpload(file: ImageFile, form: ClothingFormData)
    requires CheckImage(file).None?
    requires form.category in CategoryOptions && form.season in SeasonOptions
    requires SubmitCheck(Some(file), form).None?
    ensures ClothingsApi.CheckUpload(Body(form), Some(file)).Success?
    ensures ClothingsApi.CheckUpload(Body(form), Some(file)).value.1 == file
  {
    CategoryOptionParses(form.category);
    SeasonOptionParses(form.season);
    NotBlankIsNotEmpty(form.name);
    NotBlankIsNotEmpty(form.color);
    assert ClothingsApi.SchemaValid(Body(form));
  }

  lemma CategoryOptionParses(v: string)
    requires v in CategoryOptions
    ensures ParseCategory(v).Some?
  {
  }

  lemma SeasonOptionParses(v: string)
    requires v in SeasonOptions
    ensures ParseSeason(v).Some?
  {
  }

  lemma NotBlankIsNotEmpty(s: string)
    requires !IsBlank(s)
    ensures s != ""
  {
  }

  /** The route is laxer than the form: a name of spaces passes the route but not the form. */
  lemma BlankNamePassesUploadButNotForm()
    ensures var file := ImageFile("a.png", "image/png", 1);
      var form := InitialForm().(name := " ", color := "red");
      SubmitCheck(Some(file), form) == Some(BlankName)
      && ClothingsApi.CheckUpload(Body(form), Some(file)).Success?
  {
    var form := InitialForm().(name := " ", color := "red");
    assert IsBlank(form.name);
    assert !IsBlank(form.color) by { assert !IsSpace(form.color[0]); }
    assert ClothingsApi.SchemaValid(Body(form));
  }

  /** The form's state; `Valid`: a kept image always passed the type and size checks. */
  class AddClothingForm {
    var selectedFile: Option<ImageFile>
    var formData: ClothingFormData
    var isLoading: bool
    var error: string

    ghost predicate Valid()
      reads this
    {
      selectedFile.None? || CheckImage(selectedFile.value).None?
    }

    constructor ()
      ensures Valid()
      ensures selectedFile.None? && formData == InitialForm() && !isLoading && error == ""
    {
      selectedFile := None;
      formData := InitialForm();
      isLoading := false;
      error := "";
    }

    /**
     * `handleFileSelect`: no file changes nothing; a file of the wrong type
     * or over 5 MB sets that error and keeps the previous choice; an
     * accepted file replaces it and clears the error.
     */
    method HandleFileSelect(file: Option<ImageFile>)
      requires Valid()
      modifies this
      ensures Valid()
      ensures file.None? ==> selectedFile == old(selectedFile) && error == old(error)
      ensures file.Some? && CheckImage(file.value).Some? ==>
        selectedFile == old(selectedFile) && error == CheckImage(file.value).value.Message()
      ensures file.Some? && CheckImage(file.value).None? ==> selectedFile == file && error == ""
      ensures formData == old(formData) && isLoading == old(isLoading)
    {
      if file.Some? {
        var problem := CheckImage(file.value);
        if problem.Some? {
          error := problem.value.Message();
          return;
        }
        selectedFile := file;
        error := "";
      }
    }

    method HandleInputChange(field: FormField, value: string)
      modifies this
      ensures formData == WithField(old(formData), field, value)
      ensures selectedFile == old(selectedFile) && error == old(error) && isLoading == old(isLoading)
    {
      formData := WithField(formData, field, value);
    }

    /**
     * The synchronous part of `handleSubmit`: a failing check sets its
     * message and sends nothing; otherwise loading starts, the error is
     * cleared and the image and form data are sent.
     */
    method HandleSubmit() returns (sent: Option<Submission>)
      requires Valid()
      modifies this
      ensures Valid()
      ensures sent.None? <==> SubmitCheck(old(selectedFile), old(formData)).Some?
      ensures sent.None? ==> error == SubmitCheck(old(selectedFile), old(formData)).value.Message() && isLoading == old(isLoading)
      ensures sent.Some? ==> sent.value == Submission(old(selectedFile).value, Body(old(formData)))
      ensures sent.Some? ==> CheckImage(sent.value.image).None? && isLoading && error == ""
      ensures selectedFile == old(selectedFile) && formData == old(formData)
    {
      var problem := SubmitCheck(selectedFile, formData);
      if problem.Some? {
        error := problem.value.Message();
        return None;
      }
      isLoading := true;
      error := "";
      sent := Some(Submission(selectedFile.value, Body(formData)));
    }

    /**
     * The end of `handleSubmit`: a created item navigates back to the list;
     * a failure shows its message. Loading ends either way.
     */
    method FinishSubmit(outcome: SubmitOutcome) returns (navigate: bool)
      modifies this
      ensures navigate <==> outcome.Created?
      ensures !isLoading
      ensures outcome.Created? ==> error == old(error)
      ensures !outcome.Created? ==> error == FailureMessage(outcome)
      ensures selectedFile == old(selectedFile) && formData == old(formData)
    {
      navigate := outcome.Created?;
      if !navigate {
        error := FailureMessage(outcome);
      }
      isLoading := false;
    }
  }
}
