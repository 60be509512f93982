/** The result mapper: which value a backend response puts into a property, given the
    feature the property asks for and its declared type. `None` means the property is left
    untouched (a feature and type the handler has no rule for). */
module Mapper {
  import opened Wrappers
  import opened VisionTypes
  import opened Text
  import opened Content
  import opened VisionResults

  // ---- projections of the response (LINQ `Select`) ----

  function TagNames(tags: seq<ImageTag>): (names: seq<string>)
    ensures |names| == |tags|
    ensures forall i :: 0 <= i < |tags| ==> names[i] == tags[i].name
  {
    seq(|tags|, i requires 0 <= i < |tags| => tags[i].name)
  }

  function CategoryNames(categories: seq<Category>): (names: seq<string>)
    ensures |names| == |categories|
    ensures forall i :: 0 <= i < |categories| ==> names[i] == categories[i].name
  {
    seq(|categories|, i requires 0 <= i < |categories| => categories[i].name)
  }

  function CaptionTexts(captions: seq<ImageCaption>): (texts: seq<string>)
    ensures |texts| == |captions|
    ensures forall i :: 0 <= i < |captions| ==> texts[i] == captions[i].text
  {
    seq(|captions|, i requires 0 <= i < |captions| => captions[i].text)
  }

  /** `fc.Gender + " " + fc.Age.ToString()` */
  function FaceSummary(face: FaceDescription): string {
    face.gender + " " + IntToString(face.age)
  }

  function FaceSummaries(faces: seq<FaceDescription>): (summaries: seq<string>)
    ensures |summaries| == |faces|
    ensures forall i :: 0 <= i < |faces| ==> summaries[i] == FaceSummary(faces[i])
  {
    seq(|faces|, i requires 0 <= i < |faces| => FaceSummary(faces[i]))
  }

  function FaceAges(faces: seq<FaceDescription>): (ages: seq<string>)
    ensures |ages| == |faces|
    ensures forall i :: 0 <= i < |faces| ==> ages[i] == IntToString(faces[i].age)
  {
    seq(|faces|, i requires 0 <= i < |faces| => IntToString(faces[i].age))
  }

  function FaceGenders(faces: seq<FaceDescription>): (genders: seq<string>)
    ensures |genders| == |faces|
    ensures forall i :: 0 <= i < |faces| ==> genders[i] == faces[i].gender
  {
    seq(|faces|, i requires 0 <= i < |faces| => faces[i].gender)
  }

  /** A list of strings for a `string` property (joined by the separator) or a `string[]`
      property (as is); nothing for any other type. */
  function JoinedOrArray(t: TypeTag, items: seq<string>, sep: string): Option<Value> {
    if t == StringType then Some(StringValue(Join(sep, items)))
    else if t == StringArrayType then Some(StringArrayValue(items))
    else None
  }

  /** The switch of the analysis group: the value written into a property that asks for
      `feature`, is declared as `t`, and whose attribute carries separator `sep`. */
  function MapAnalysis(feature: VisionType, t: TypeTag, res: ImageAnalysis, sep: string): Option<Value> {
    match feature
    case Adult =>
      if t == BoolType then Some(BoolValue(res.adult.isAdultContent))
      else if t == DoubleType then Some(DoubleValue(res.adult.adultScore))
      else None
    case Categories => JoinedOrArray(t, CategoryNames(res.categories), sep)
    case ClipArt =>
      if t == BoolType then Some(BoolValue(res.imageType.clipArtType == 0)) else None
    case Description =>
      var texts := CaptionTexts(res.description.captions);
      if t == StringType then Some(if texts == [] then NullValue else StringValue(texts[0]))
      else if t == StringArrayType then Some(StringArrayValue(texts))
      else None
    case LineDrawing =>
      if t == BoolType then Some(BoolValue(res.imageType.lineDrawingType == 0)) else None
    case Racy =>
      if t == BoolType then Some(BoolValue(res.adult.isRacyContent))
      else if t == DoubleType then Some(DoubleValue(res.adult.racyScore))
      else None
    case Tags =>
      var names := TagNames(res.tags);
      if t == StringType then Some(StringValue(Join(sep, names)))
      else if t == StringArrayType then Some(StringArrayValue(names))
      else if t == StringListType then Some(StringListValue(names))
      else None
    case BlackAndWhite =>
      if t == BoolType then Some(BoolValue(res.color.isBWImg)) else None
    case AccentColor =>
      if t == StringType then Some(StringValue(res.color.accentColor)) else None
    case DominantBackgroundColor =>
      if t == StringType then Some(StringValue(res.color.dominantColorBackground)) else None
    case DominantForegroundColor =>
      if t == StringType then Some(StringValue(res.color.dominantColorForeground)) else None
    case Faces => JoinedOrArray(t, FaceSummaries(res.faces), sep)
    case FacesAge => JoinedOrArray(t, FaceAges(res.faces), sep)
    // corrected for string[]: the gender names (see FacesGenderAsWritten)
    case FacesGender => JoinedOrArray(t, FaceGenders(res.faces), sep)
    case Text => None
  }

  /** The table of (feature, declared type) pairs that receive a value from image analysis,
      written independently of the switch. */
  predicate AnalysisSupported(f: VisionType, t: TypeTag) {
    match t
    case StringType =>
      f in {Description, Tags, Categories, AccentColor, DominantBackgroundColor,
            DominantForegroundColor, Faces, FacesGender, FacesAge}
    case StringArrayType => f in {Description, Tags, Categories, Faces, FacesGender, FacesAge}
    case StringListType => f == Tags
    case BoolType => f in {Adult, Racy, ClipArt, LineDrawing, BlackAndWhite}
    case DoubleType => f in {Adult, Racy}
    case XhtmlStringType => false
    case BlobType => false
    case OtherType => false
  }

  /** The switch is a total case analysis: a value comes out exactly for the pairs in the table,
      the property is left untouched otherwise, and what comes out fits the declared type. */
  lemma MapAnalysisTotal(f: VisionType, t: TypeTag, res: ImageAnalysis, sep: string)
    ensures MapAnalysis(f, t, res, sep).Some? <==> AnalysisSupported(f, t)
    ensures MapAnalysis(f, t, res, sep).Some? ==> Fits(MapAnalysis(f, t, res, sep).value, t)
    ensures MapAnalysis(f, t, res, sep).Some? ==> t != BlobType
    ensures MapAnalysis(Text, t, res, sep) == None
  {
  }

  /** Tags: a `string` gets the names joined by the separator (so splitting on a one-character
      separator that no name contains gives the names back); `string[]` and `IList<string>`
      get the names in response order. */
  lemma TagsMapping(res: ImageAnalysis, sep: string)
    ensures MapAnalysis(Tags, StringType, res, sep) == Some(StringValue(Join(sep, TagNames(res.tags))))
    ensures MapAnalysis(Tags, StringArrayType, res, sep) == Some(StringArrayValue(TagNames(res.tags)))
    ensures MapAnalysis(Tags, StringListType, res, sep) == Some(StringListValue(TagNames(res.tags)))
    ensures |sep| == 1 && |res.tags| >= 1 && (forall i :: 0 <= i < |res.tags| ==> sep[0] !in res.tags[i].name) ==>
      SplitOn(sep[0], MapAnalysis(Tags, StringType, res, sep).value.text) == TagNames(res.tags)
  {
    if |sep| == 1 && |res.tags| >= 1 && (forall i :: 0 <= i < |res.tags| ==> sep[0] !in res.tags[i].name) {
      assert sep == [sep[0]];
      SplitJoin(sep[0], TagNames(res.tags));
    }
  }

  /** Categories follow the Tags pattern for `string` and `string[]` (and give nothing to an
      `IList<string>`). */
  lemma CategoriesMapping(res: ImageAnalysis, sep: string)
    ensures MapAnalysis(Categories, StringType, res, sep) == Some(StringValue(Join(sep, CategoryNames(res.categories))))
    ensures MapAnalysis(Categories, StringArrayType, res, sep) == Some(StringArrayValue(CategoryNames(res.categories)))
    ensures MapAnalysis(Categories, StringListType, res, sep) == None
    ensures |sep| == 1 && |res.categories| >= 1 && (forall i :: 0 <= i < |res.categories| ==> sep[0] !in res.categories[i].name) ==>
      SplitOn(sep[0], MapAnalysis(Categories, StringType, res, sep).value.text) == CategoryNames(res.categories)
  {
    if |sep| == 1 && |res.categories| >= 1 && (forall i :: 0 <= i < |res.categories| ==> sep[0] !in res.categories[i].name) {
      assert sep == [sep[0]];
      SplitJoin(sep[0], CategoryNames(res.categories));
    }
  }

  /** Description: a `string` gets the first caption, or null when there is none; a `string[]`
      gets every caption in order. */
  lemma DescriptionMapping(res: ImageAnalysis, sep: string)
    ensures res.description.captions == [] ==> MapAnalysis(Description, StringType, res, sep) == Some(NullValue)
    ensures res.description.captions != [] ==>
      MapAnalysis(Description, StringType, res, sep) == Some(StringValue(res.description.captions[0].text))
    ensures MapAnalysis(Description, StringArrayType, res, sep) == Some(StringArrayValue(CaptionTexts(res.description.captions)))
  {
  }

  /** Flags and scores: Adult and Racy give their flag to a `bool` and their score to a
      `double`; ClipArt and LineDrawing give `code == 0` to a `bool`; BlackAndWhite gives its
      flag to a `bool`. */
  lemma FlagAndScoreMapping(res: ImageAnalysis, sep: string)
    ensures MapAnalysis(Adult, BoolType, res, sep) == Some(BoolValue(res.adult.isAdultContent))
    ensures MapAnalysis(Adult, DoubleType, res, sep) == Some(DoubleValue(res.adult.adultScore))
    ensures MapAnalysis(Racy, BoolType, res, sep) == Some(BoolValue(res.adult.isRacyContent))
    ensures MapAnalysis(Racy, DoubleType, res, sep) == Some(DoubleValue(res.adult.racyScore))
    ensures MapAnalysis(ClipArt, BoolType, res, sep) == Some(BoolValue(res.imageType.clipArtType == 0))
    ensures MapAnalysis(LineDrawing, BoolType, res, sep) == Some(BoolValue(res.imageType.lineDrawingType == 0))
    ensures MapAnalysis(BlackAndWhite, BoolType, res, sep) == Some(BoolValue(res.color.isBWImg))
    ensures forall t :: t != BoolType && t != DoubleType ==>
      MapAnalysis(Adult, t, res, sep) == None && MapAnalysis(Racy, t, res, sep) == None
    ensures forall t :: t != BoolType ==>
      MapAnalysis(ClipArt, t, res, sep) == None && MapAnalysis(LineDrawing, t, res, sep) == None &&
      MapAnalysis(BlackAndWhite, t, res, sep) == None
  {
  }

  /** The three colour features each write their own field of the colour information as a
      string. The last clause is documentation only: it follows from the first three, and
      records that no two colour features read the same field. */
  lemma ColourMapping(res: ImageAnalysis, sep: string)
    ensures MapAnalysis(AccentColor, StringType, res, sep) == Some(StringValue(res.color.accentColor))
    ensures MapAnalysis(DominantBackgroundColor, StringType, res, sep) == Some(StringValue(res.color.dominantColorBackground))
    ensures MapAnalysis(DominantForegroundColor, StringType, res, sep) == Some(StringValue(res.color.dominantColorForeground))
    ensures var c := res.color;
      c.accentColor != c.dominantColorBackground && c.accentColor != c.dominantColorForeground &&
      c.dominantColorBackground != c.dominantColorForeground ==>
      MapAnalysis(AccentColor, StringType, res, sep) != MapAnalysis(DominantBackgroundColor, StringType, res, sep) &&
      MapAnalysis(AccentColor, StringType, res, sep) != MapAnalysis(DominantForegroundColor, StringType, res, sep) &&
      MapAnalysis(DominantBackgroundColor, StringType, res, sep) != MapAnalysis(DominantForegroundColor, StringType, res, sep)
  {
  }

  /** Faces: one "gender age" entry per face, in face order; FacesAge gives the ages, which read
      back as the backend's integers; FacesGender gives the genders. A `string` gets them
      joined by the separator, a `string[]` the list. */
  lemma FacesMapping(res: ImageAnalysis, sep: string)
    ensures MapAnalysis(Faces, StringType, res, sep) == Some(StringValue(Join(sep, FaceSummaries(res.faces))))
    ensures MapAnalysis(Faces, StringArrayType, res, sep) == Some(StringArrayValue(FaceSummaries(res.faces)))
    ensures MapAnalysis(FacesAge, StringType, res, sep) == Some(StringValue(Join(sep, FaceAges(res.faces))))
    ensures MapAnalysis(FacesAge, StringArrayType, res, sep) == Some(StringArrayValue(FaceAges(res.faces)))
    ensures MapAnalysis(FacesGender, StringType, res, sep) == Some(StringValue(Join(sep, FaceGenders(res.faces))))
    ensures MapAnalysis(FacesGender, StringArrayType, res, sep) == Some(StringArrayValue(FaceGenders(res.faces)))
  {
  }

  /** Each face summary is the gender, a space and the age, and the age text reads back as the age. */
  lemma FaceTexts(faces: seq<FaceDescription>)
    ensures forall i :: 0 <= i < |faces| ==>
      FaceSummaries(faces)[i] == faces[i].gender + " " + FaceAges(faces)[i] &&
      ParseInt(FaceAges(faces)[i]) == faces[i].age
  {
    forall i | 0 <= i < |faces|
      ensures ParseInt(FaceAges(faces)[i]) == faces[i].age
    {
      ParseIntToString(faces[i].age);
    }
  }

  // ---- the FacesGender arm as written ----

  /** What an arm of the switch hands to `SetValue`, as written: a CLR value, or the array that
      the FacesGender arm builds for a `string[]` property, whose elements are the backend's
      gender enum values (shown by their names), not strings. */
  datatype RawValue = Clr(value: Value) | GenderEnumArray(names: seq<string>)

  /** What `PropertyInfo.SetValue` does with a value: store it, or throw because it is not of
      the property's declared type. */
  datatype SetOutcome = Stored(value: Value) | Thrown

  function SetValueAsWritten(raw: RawValue, t: TypeTag): SetOutcome {
    match raw
    case Clr(v) => if Fits(v, t) then Stored(v) else Thrown
    case GenderEnumArray(_) => Thrown
  }

  /** The FacesGender arm as written: a `string` gets the gender names joined by the separator,
      a `string[]` gets the enum array, any other type nothing. */
  function FacesGenderAsWritten(t: TypeTag, res: ImageAnalysis, sep: string): Option<RawValue> {
    var genders := FaceGenders(res.faces);
    if t == StringType then Some(Clr(StringValue(Join(sep, genders))))
    else if t == StringArrayType then Some(GenderEnumArray(genders))
    else None
  }

  /** As written, FacesGender on a `string[]` property makes `SetValue` throw, where the
      corrected switch stores the gender names; on every other type the two agree. */
  lemma FacesGenderArrayThrowsAsWritten(res: ImageAnalysis, sep: string)
    ensures FacesGenderAsWritten(StringArrayType, res, sep).Some?
    ensures SetValueAsWritten(FacesGenderAsWritten(StringArrayType, res, sep).value, StringArrayType) == Thrown
    ensures MapAnalysis(FacesGender, StringArrayType, res, sep) == Some(StringArrayValue(FaceGenders(res.faces)))
    ensures forall t :: t != StringArrayType ==>
      (FacesGenderAsWritten(t, res, sep).None? <==> MapAnalysis(FacesGender, t, res, sep).None?) &&
      (FacesGenderAsWritten(t, res, sep).Some? ==>
        SetValueAsWritten(FacesGenderAsWritten(t, res, sep).value, t) == Stored(MapAnalysis(FacesGender, t, res, sep).value))
  {
  }

  // ---- the OCR group ----

  function WordTexts(words: seq<OcrWord>): (texts: seq<string>)
    ensures |texts| == |words|
    ensures forall i :: 0 <= i < |words| ==> texts[i] == words[i].text
  {
    seq(|words|, i requires 0 <= i < |words| => words[i].text)
  }

  /** One recognised line: its words joined by a single space. */
  function LineText(line: OcrLine): string {
    Join(" ", WordTexts(line.words))
  }

  function LineTexts(lines: seq<OcrLine>): (texts: seq<string>)
    ensures |texts| == |lines|
    ensures forall i :: 0 <= i < |lines| ==> texts[i] == LineText(lines[i])
  {
    seq(|lines|, i requires 0 <= i < |lines| => LineText(lines[i]))
  }

  /** `Regions.SelectMany(r => r.Lines).Select(...)`: the lines of every region, in order. */
  function RegionLines(regions: seq<OcrRegion>): seq<string> {
    if regions == [] then [] else LineTexts(regions[0].lines) + RegionLines(regions[1..])
  }

  function OcrLines(ocr: OcrResult): seq<string> {
    RegionLines(ocr.regions)
  }

  /** `"<p>" + line + "</p>"` for each line. */
  function Paragraphs(lines: seq<string>): (wrapped: seq<string>)
    ensures |wrapped| == |lines|
    ensures forall i :: 0 <= i < |lines| ==> wrapped[i] == "<p>" + lines[i] + "</p>"
  {
    seq(|lines|, i requires 0 <= i < |lines| => "<p>" + lines[i] + "</p>")
  }

  /** The loop body of the OCR group: what a property of declared type `t` receives. */
  function MapOcr(t: TypeTag, lines: seq<string>, sep: string): Option<Value> {
    if t == StringArrayType then Some(StringArrayValue(lines))
    else if t == StringType then Some(StringValue(Join(sep, lines)))
    else if t == XhtmlStringType then Some(XhtmlValue(Join("", Paragraphs(lines))))
    else None
  }

  /** Recognised lines keep the backend's order: flattening concatenated region lists gives
      the concatenation of their lines. */
  lemma {:induction false} RegionLinesAppend(a: seq<OcrRegion>, b: seq<OcrRegion>)
    ensures RegionLines(a + b) == RegionLines(a) + RegionLines(b)
  {
    if a == [] {
      assert a + b == b;
    } else {
      assert (a + b)[1..] == a[1..] + b;
      RegionLinesAppend(a[1..], b);
    }
  }

  /** The number of lines is the total over the regions, and a single region contributes its
      own lines in order. */
  lemma {:induction false} RegionLinesCount(regions: seq<OcrRegion>)
    ensures |RegionLines(regions)| == LineCount(regions)
    ensures |regions| == 1 ==> RegionLines(regions) == LineTexts(regions[0].lines)
  {
    if regions != [] {
      RegionLinesCount(regions[1..]);
      if |regions| == 1 {
        assert regions[1..] == [];
      }
    }
  }

  function LineCount(regions: seq<OcrRegion>): nat {
    if regions == [] then 0 else |regions[0].lines| + LineCount(regions[1..])
  }

  /** A line's words are recovered by splitting on the space, as long as no word contains one. */
  lemma LineWords(line: OcrLine)
    requires |line.words| >= 1
    requires forall i :: 0 <= i < |line.words| ==> ' ' !in line.words[i].text
    ensures SplitOn(' ', LineText(line)) == WordTexts(line.words)
  {
    SplitJoin(' ', WordTexts(line.words));
  }

  /** `string.Join` with the empty separator is concatenation. */
  lemma {:induction false} JoinEmptyAppend(a: seq<string>, b: seq<string>)
    ensures Join("", a + b) == Join("", a) + Join("", b)
  {
    if a == [] {
      assert a + b == b;
    } else if |a| == 1 {
      if b != [] {
        assert a + b == [a[0]] + b;
        assert (a + b)[1..] == b;
      }
    } else {
      assert (a + b)[1..] == a[1..] + b;
      JoinEmptyAppend(a[1..], b);
    }
  }

  /** The XHTML rendering is one paragraph per line, in order: appending lines appends
      paragraphs. */
  lemma XhtmlParagraphs(a: seq<string>, b: seq<string>)
    ensures Join("", Paragraphs(a + b)) == Join("", Paragraphs(a)) + Join("", Paragraphs(b))
    ensures Join("", Paragraphs([])) == ""
    ensures forall line :: Join("", Paragraphs([line])) == "<p>" + line + "</p>"
  {
    assert Paragraphs(a + b) == Paragraphs(a) + Paragraphs(b);
    JoinEmptyAppend(Paragraphs(a), Paragraphs(b));
  }

  /** The OCR group writes the line list into `string[]`, the lines joined by the separator into
      `string`, the paragraphs into `XhtmlString`, and leaves every other type untouched; what
      it writes fits the declared type and is never a Blob. */
  lemma MapOcrTotal(t: TypeTag, lines: seq<string>, sep: string)
    ensures MapOcr(t, lines, sep).Some? <==> t in {StringArrayType, StringType, XhtmlStringType}
    ensures MapOcr(t, lines, sep).Some? ==> Fits(MapOcr(t, lines, sep).value, t)
    ensures MapOcr(StringArrayType, lines, sep) == Some(StringArrayValue(lines))
    ensures MapOcr(StringType, lines, sep) == Some(StringValue(Join(sep, lines)))
    ensures MapOcr(XhtmlStringType, lines, sep) == Some(XhtmlValue(Join("", Paragraphs(lines))))
    ensures |sep| == 1 && |lines| >= 1 && (forall i :: 0 <= i < |lines| ==> sep[0] !in lines[i]) ==>
      SplitOn(sep[0], MapOcr(StringType, lines, sep).value.text) == lines
  {
    if |sep| == 1 && |lines| >= 1 && (forall i :: 0 <= i < |lines| ==> sep[0] !in lines[i]) {
      assert sep == [sep[0]];
      SplitJoin(sep[0], lines);
    }
  }
}
