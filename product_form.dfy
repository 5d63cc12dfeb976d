/** The add-product form's state helpers: the initial form, field updates from inputs,
    the checkbox lists, the features textarea, the attached-image list and the
    client-side validation gates. The form is the JSON object the page submits. */
module ProductForm {
  import opened Js
  import opened Text
  import opened Seqs
  import ImageUpload

  /** `formData`: property name to value. */
  type Form = map<string, Json>

  /** The form as first rendered, and as restored after a successful submission. */
  const InitialForm: Form := map[
    "name" := JStr(""),
    "description" := JStr(""),
    "price" := JStr(""),
    "category" := JStr(""),
    "brand" := JStr(""),
    "model" := JStr(""),
    "sku" := JStr(""),
    "stock" := JStr(""),
    "weight" := JStr(""),
    "dimensions" := JObj(map["length" := JStr(""), "width" := JStr(""), "height" := JStr("")]),
    "specifications" := JObj(map[
      "processor" := JStr(""),
      "ram" := JStr(""),
      "storage" := JStr(""),
      "displaySize" := JStr(""),
      "resolution" := JStr(""),
      "batteryLife" := JStr(""),
      "operatingSystem" := JStr(""),
      "connectivity" := JArr([]),
      "ports" := JArr([]),
      "warranty" := JStr("")]),
    "features" := JArr([]),
    "colors" := JArr([]),
    "powerRequirements" := JObj(map["voltage" := JStr(""), "wattage" := JStr(""), "batteryType" := JStr("")]),
    "certifications" := JArr([]),
    "tags" := JStr(""),
    "status" := JStr("active"),
    "featured" := JBool(false),
    "images" := JArr([])
  ]

  // ------------------------------------------------------------ field updates

  /** The fields of `form[parent]` when it is an object; spreading anything else is
      treated as spreading nothing. */
  function ChildFields(form: Form, parent: string): map<string, Json>
  {
    if parent in form && form[parent].JObj? then form[parent].fields else map[]
  }

  /** `handleInputChange`: a dotted name "parent.child" replaces that one child of the
      parent object with the input's value; any other name sets the top-level field,
      to `checked` for a checkbox and to the value otherwise. */
  function InputChange(form: Form, name: string, value: string, isCheckbox: bool, checked: bool): (r: Form)
    ensures '.' !in name ==> r == form[name := if isCheckbox then JBool(checked) else JStr(value)]
    ensures '.' in name ==>
      var parent := SplitOn(name, '.')[0];
      var child := SplitOn(name, '.')[1];
      && r.Keys == form.Keys + {parent}
      && (forall k :: k in form && k != parent ==> r[k] == form[k])
      && r[parent] == JObj(ChildFields(form, parent)[child := JStr(value)])
  {
    if '.' in name then
      var parts := SplitOn(name, '.');
      var parent := parts[0];
      var child := parts[1];
      form[parent := JObj(ChildFields(form, parent)[child := JStr(value)])]
    else
      form[name := if isCheckbox then JBool(checked) else JStr(value)]
  }

  /** A dotted update changes exactly one child: every other child of the parent, and
      every other top-level field, keeps its value. */
  lemma DottedUpdateIsLocal(form: Form, parent: string, child: string, value: string)
    requires '.' !in parent && '.' !in child
    requires parent in form && form[parent].JObj?
    ensures var r := InputChange(form, parent + "." + child, value, false, false);
      && parent in r && r[parent].JObj? && child in r[parent].fields
      && r[parent].fields[child] == JStr(value)
      && r[parent].fields.Keys == form[parent].fields.Keys + {child}
      && (forall c :: c in form[parent].fields && c != child ==> r[parent].fields[c] == form[parent].fields[c])
      && (forall k :: k in form && k != parent ==> r[k] == form[k])
  {
    var name := parent + "." + child;
    assert name == parent + ['.'] + child;
    assert name[|parent|] == '.';
    SplitAfterPiece(parent, '.', child);
    SplitNoSep(child, '.');
    assert SplitOn(name, '.') == [parent, child];
  }

  // --------------------------------------------------------------- checkboxes

  /** A checkbox list change: checking appends the option at the end, unchecking removes
      every occurrence of it and keeps the rest in order. */
  function Toggle(list: seq<Json>, option: Json, checked: bool): (r: seq<Json>)
    ensures checked ==> r == list + [option]
    ensures !checked ==> option !in r && IsSubsequence(r, list)
    ensures !checked ==> forall x :: x != option ==> multiset(r)[x] == multiset(list)[x]
  {
    if checked then list + [option]
    else
      var r := Filter(list, x => x != option);
      FilterIsSubsequence(list, x => x != option);
      forall x | x != option ensures multiset(r)[x] == multiset(list)[x] {
        FilterCount(list, x => x != option, x);
      }
      r
  }

  /** The array held in `fields[key]` (the lists the page reads are always arrays). */
  predicate HasList(fields: map<string, Json>, key: string)
  {
    key in fields && fields[key].JArr?
  }

  /** The colours checkbox: a top-level list. */
  function ToggleTopLevel(form: Form, key: string, option: string, checked: bool): (r: Form)
    requires HasList(form, key)
    ensures r.Keys == form.Keys
    ensures forall k :: k in form && k != key ==> r[k] == form[k]
    ensures r[key] == JArr(Toggle(form[key].items, JStr(option), checked))
  {
    form[key := JArr(Toggle(form[key].items, JStr(option), checked))]
  }

  /** The connectivity and ports checkboxes: a list inside `specifications`, whose other
      entries are spread back unchanged. */
  function ToggleNested(form: Form, parent: string, key: string, option: string, checked: bool): (r: Form)
    requires parent in form && form[parent].JObj? && HasList(form[parent].fields, key)
    ensures r.Keys == form.Keys
    ensures forall k :: k in form && k != parent ==> r[k] == form[k]
    ensures r[parent].JObj? && r[parent].fields.Keys == form[parent].fields.Keys
    ensures forall c :: c in form[parent].fields && c != key ==> r[parent].fields[c] == form[parent].fields[c]
    ensures r[parent].fields[key] == JArr(Toggle(form[parent].fields[key].items, JStr(option), checked))
  {
    var inner := form[parent].fields;
    form[parent := JObj(inner[key := JArr(Toggle(inner[key].items, JStr(option), checked))])]
  }

  /** Checking then unchecking an option that was not selected restores the list. */
  lemma ToggleRoundTrip(list: seq<Json>, option: Json)
    requires option !in list
    ensures Toggle(Toggle(list, option, true), option, false) == list
  {
    FilterAppend(list, [option], x => x != option);
    FilterKeepsAll(list, x => x != option);
    assert Filter([option], x => x != option) == [] + Filter([], x => x != option);
  }

  // ------------------------------------------------------------------ features

  /** `line.trim()` is truthy. */
  predicate NonBlankLine(line: string)
  {
    Trim(line) != ""
  }

  /** The features textarea: split on newlines, dropping lines that are blank after trimming.
      Every non-blank line of the text is kept, as often as it occurs and in its order. */
  function ParseFeatures(text: string): (fs: seq<string>)
    ensures forall f :: f in fs ==> !IsBlank(f) && '\n' !in f
    ensures IsSubsequence(fs, SplitOn(text, '\n'))
    ensures forall l :: multiset(fs)[l] == if IsBlank(l) then 0 else multiset(SplitOn(text, '\n'))[l]
  {
    var lines := SplitOn(text, '\n');
    var fs := Filter(lines, NonBlankLine);
    forall f | f in fs ensures !IsBlank(f) {
      TrimEmptyIffBlank(f);
    }
    FilterIsSubsequence(lines, NonBlankLine);
    forall l ensures multiset(fs)[l] == if IsBlank(l) then 0 else multiset(lines)[l] {
      FilterCount(lines, NonBlankLine, l);
      TrimEmptyIffBlank(l);
    }
    fs
  }

  /** The textarea shows `features.join("\n")`; parsing it gives back the same features
      whenever each is a non-blank line without a newline. */
  lemma FeaturesRoundTrip(fs: seq<string>)
    requires forall f :: f in fs ==> !IsBlank(f) && '\n' !in f
    ensures ParseFeatures(Join(fs, '\n')) == fs
  {
    if fs == [] {
      assert SplitOn("", '\n') == [""];
      assert !NonBlankLine("") by { TrimEmptyIffBlank(""); }
      assert Filter([""], NonBlankLine) == [] + Filter([], NonBlankLine);
    } else {
      SplitJoin(fs, '\n');
      forall f | f in fs ensures NonBlankLine(f) {
        TrimEmptyIffBlank(f);
      }
      FilterKeepsAll(fs, NonBlankLine);
    }
  }

  /** A newline typed at the end of the textarea is dropped at once: the features do
      not change, and the re-rendered text is the old text. */
  lemma TrailingNewlineDropped(fs: seq<string>)
    requires |fs| >= 1
    requires forall f :: f in fs ==> !IsBlank(f) && '\n' !in f
    ensures ParseFeatures(Join(fs, '\n') + "\n") == fs
  {
    var parts := fs + [""];
    assert Join(fs, '\n') + "\n" == Join(parts, '\n') by {
      JoinSnoc(fs, "", '\n');
    }
    forall i | 0 <= i < |parts| ensures '\n' !in parts[i] {
      if i < |fs| { assert parts[i] in fs; }
    }
    SplitJoin(parts, '\n');
    NonBlankLinesKept(fs);
  }

  /** Filtering non-blank lines keeps every one of them and drops a final empty line. */
  lemma NonBlankLinesKept(fs: seq<string>)
    requires forall f :: f in fs ==> !IsBlank(f)
    ensures Filter(fs + [""], NonBlankLine) == fs
  {
    FilterAppend(fs, [""], NonBlankLine);
    forall f | f in fs ensures NonBlankLine(f) {
      TrimEmptyIffBlank(f);
    }
    FilterKeepsAll(fs, NonBlankLine);
    assert !NonBlankLine("") by { TrimEmptyIffBlank(""); }
    assert Filter([""], NonBlankLine) == [] + Filter([], NonBlankLine);
  }

  /** Joining one more piece appends the separator and the piece. */
  lemma {:induction false} JoinSnoc(parts: seq<string>, last: string, sep: char)
    requires |parts| >= 1
    ensures Join(parts + [last], sep) == Join(parts, sep) + [sep] + last
    decreases |parts|
  {
    if |parts| == 1 {
      assert (parts + [last])[1..] == [last];
    } else {
      assert (parts + [last])[1..] == parts[1..] + [last];
      JoinSnoc(parts[1..], last, sep);
    }
  }

  // ------------------------------------------------------------ attached images

  /** An attached image: the file, its preview URL and a random id. */
  datatype UploadedImage = UploadedImage(file: ImageUpload.FileRef, preview: string, id: string)

  /** `handleFiles`: one entry per file, in file order, appended after the current ones.
      Preview URLs and random ids come from the browser: `preview(i)` and `id(i)` are
      what the i-th file received. */
  function AddFiles(current: seq<UploadedImage>, files: seq<ImageUpload.FileRef>,
                    preview: nat -> string, id: nat -> string): (r: seq<UploadedImage>)
    ensures |r| == |current| + |files|
    ensures r[..|current|] == current
    ensures forall i :: 0 <= i < |files| ==>
      r[|current| + i] == UploadedImage(files[i], preview(i), id(i))
  {
    current + seq(|files|, i requires 0 <= i < |files| => UploadedImage(files[i], preview(i), id(i)))
  }

  predicate HasOtherId(img: UploadedImage, id: string)
  {
    img.id != id
  }

  /** `removeImage`: drop every entry with the id, keep the others in order. */
  function RemoveImage(images: seq<UploadedImage>, id: string): (r: seq<UploadedImage>)
    ensures forall img :: img in r ==> img.id != id
    ensures forall img :: img in images && img.id != id ==> multiset(r)[img] == multiset(images)[img]
    ensures IsSubsequence(r, images)
  {
    var keep := (img: UploadedImage) => HasOtherId(img, id);
    var r := Filter(images, keep);
    FilterIsSubsequence(images, keep);
    forall img | img in images && img.id != id ensures multiset(r)[img] == multiset(images)[img] {
      FilterCount(images, keep, img);
    }
    r
  }

  /** The files of the attached images, in order. */
  function Files(images: seq<UploadedImage>): (fs: seq<ImageUpload.FileRef>)
    ensures |fs| == |images| && forall i :: 0 <= i < |images| ==> fs[i] == images[i].file
  {
    seq(|images|, i requires 0 <= i < |images| => images[i].file)
  }

  // ---------------------------------------------------------------- validation

  /** A parsed number: `parseFloat` and `parseInt` give a value or NaN. */
  datatype Number = Num(value: real) | NaN

  /** `x <= 0` and `x < 0` for a parsed number: every comparison with NaN is false. */
  predicate AtMostZero(n: Number) { n.Num? && n.value <= 0.0 }
  predicate BelowZero(n: Number) { n.Num? && n.value < 0.0 }

  const NameRequired: string := "Product name is required"
  const PriceRequired: string := "Valid price is required"
  const StockRequired: string := "Valid stock quantity is required"

  /** The three gates of `handleSubmit`, checked in order; the first that fails names the
      error. The browser's number parsing is given as `parseFloat` and `parseInt`. */
  function Validate(form: Form, parseFloat: string -> Number, parseInt: string -> Number): (error: Option<string>)
    ensures error == Some(NameRequired) <==> Trim(StringField(form, "name")) == ""
    ensures error == Some(PriceRequired) <==>
      Trim(StringField(form, "name")) != "" && (StringField(form, "price") == "" || AtMostZero(parseFloat(StringField(form, "price"))))
    ensures error == Some(StockRequired) <==>
      Trim(StringField(form, "name")) != "" && StringField(form, "price") != "" && !AtMostZero(parseFloat(StringField(form, "price")))
      && (StringField(form, "stock") == "" || BelowZero(parseInt(StringField(form, "stock"))))
    ensures error.None? || error == Some(NameRequired) || error == Some(PriceRequired) || error == Some(StockRequired)
  {
    var name := StringField(form, "name");
    var price := StringField(form, "price");
    var stock := StringField(form, "stock");
    if Trim(name) == "" then Some(NameRequired)
    else if price == "" || AtMostZero(parseFloat(price)) then Some(PriceRequired)
    else if stock == "" || BelowZero(parseInt(stock)) then Some(StockRequired)
    else None
  }

  /** The form as first rendered never passes: its name is empty. */
  lemma InitialFormRejected(parseFloat: string -> Number, parseInt: string -> Number)
    ensures Validate(InitialForm, parseFloat, parseInt) == Some(NameRequired)
  {
    assert StringField(InitialForm, "name") == "";
  }

  /** A price that does not parse as a number passes the price gate. */
  lemma UnparsablePricePasses(form: Form, parseFloat: string -> Number, parseInt: string -> Number)
    requires Trim(StringField(form, "name")) != "" && StringField(form, "price") != "" && parseFloat(StringField(form, "price")) == NaN
    requires StringField(form, "stock") != "" && parseInt(StringField(form, "stock")) == Num(0.0)
    ensures Validate(form, parseFloat, parseInt).None?
  {
  }
}
