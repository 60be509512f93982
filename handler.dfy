/** The enrichment dispatcher (`VisionHandler`): which empty properties need which backend
    call, the size bound on the payload, and the three group loops that write results into
    the image. */
module Handler {
  import opened Wrappers
  import opened VisionTypes
  import opened Attributes
  import opened Content
  import opened VisionResults
  import opened Mapper

  // ---- configuration ----

  /** The bound configuration: subscription key and service endpoint. */
  datatype ComputeVisionOptions = ComputeVisionOptions(subscriptionKey: string, endpoint: string)

  /** A constructed handler: its options, the backend client, and the image scaler
      (`ScaleImage` followed by JPEG re-encoding), which is left uninterpreted. */
  datatype VisionHandler = VisionHandler(
    options: ComputeVisionOptions,
    client: VisionClient,
    scaleImage: seq<Byte> -> seq<Byte>)

  /** `Enabled` as written: the client field it tests is assigned by every constructor call, so
      the test cannot fail whatever the options hold. */
  function EnabledAsWritten(options: ComputeVisionOptions): bool {
    var clientConstructed := true;
    clientConstructed
  }

  lemma EnabledAsWrittenIgnoresOptions()
    ensures EnabledAsWritten(ComputeVisionOptions("", ""))
    ensures forall o :: EnabledAsWritten(o)
  {
  }

  /** `Enabled` as evidently intended: vision is on only when it has been configured with a
      subscription key and an endpoint. */
  function Enabled(options: ComputeVisionOptions): (on: bool)
    ensures on <==> options.subscriptionKey != "" && options.endpoint != ""
    ensures options.subscriptionKey == "" ==> !on
  {
    |options.subscriptionKey| > 0 && |options.endpoint| > 0
  }

  // ---- the image payload ----

  /** Payloads of this many bytes or more are scaled down before being sent. */
  const RescaleThreshold: nat := 4_000_000

  predicate NeedsRescale(length: nat) {
    length >= RescaleThreshold
  }

  /** The bytes every started group is sent: the original payload when it is under the
      threshold, its rescaled image otherwise. */
  function PreparedPayload(payload: seq<Byte>, scaleImage: seq<Byte> -> seq<Byte>): (bytes: seq<Byte>)
    ensures |payload| < 4_000_000 ==> bytes == payload
    ensures |payload| >= 4_000_000 ==> bytes == scaleImage(payload)
  {
    if NeedsRescale(|payload|) then scaleImage(payload) else payload
  }

  // ---- grouping ----

  /** `GetEmptyPropertiesWithAttribute(typeof(VisionAttribute))`, in declaration order. */
  function EmptyVisionProperties(props: seq<Property>, fields: Fields): (r: seq<Property>)
    ensures forall p :: p in r <==> p in props && p.vision.Some? && IsEmpty(fields, p)
    ensures DistinctNames(props) ==> DistinctNames(r)
  {
    if props == [] then []
    else
      var rest := EmptyVisionProperties(props[1..], fields);
      assert forall q :: q in rest ==> q in props[1..];
      if props[0].vision.Some? && IsEmpty(fields, props[0]) then [props[0]] + rest else rest
  }

  /** `GetEmptyPropertiesWithAttribute(typeof(SmartThumbnailAttribute))`, in declaration order. */
  function ThumbnailProperties(props: seq<Property>, fields: Fields): (r: seq<Property>)
    ensures forall p :: p in r <==> p in props && p.thumbnail.Some? && IsEmpty(fields, p)
  {
    if props == [] then []
    else
      var rest := ThumbnailProperties(props[1..], fields);
      if props[0].thumbnail.Some? && IsEmpty(fields, props[0]) then [props[0]] + rest else rest
  }

  /** Whether the (first) vision attribute of `p` asks for OCR. */
  predicate AsksForOcr(p: Property) {
    p.vision.Some? && RoutedToOcr(p.vision.value.visionType)
  }

  /** The `ocrs` list: the properties whose vision attribute asks for Text. */
  function OcrProperties(props: seq<Property>): (r: seq<Property>)
    ensures forall p :: p in r <==> p in props && AsksForOcr(p)
    ensures |r| <= |props|
  {
    if props == [] then []
    else (if AsksForOcr(props[0]) then [props[0]] else []) + OcrProperties(props[1..])
  }

  /** The `descriptions` list: the properties whose vision attribute asks for anything else. */
  function AnalysisProperties(props: seq<Property>): (r: seq<Property>)
    ensures forall p :: p in r <==> p in props && p.vision.Some? && !AsksForOcr(p)
    ensures |r| <= |props|
  {
    if props == [] then []
    else
      (if props[0].vision.Some? && !AsksForOcr(props[0]) then [props[0]] else [])
      + AnalysisProperties(props[1..])
  }

  /** The empty vision-marked properties split into an OCR list and an analysis list: as a
      multiset, the two add up to the whole, so each property lands in exactly one of them. */
  lemma {:induction false} GroupingIsPartition(vs: seq<Property>)
    requires forall p :: p in vs ==> p.vision.Some?
    ensures multiset(OcrProperties(vs)) + multiset(AnalysisProperties(vs)) == multiset(vs)
  {
    if vs != [] {
      var p, rest := vs[0], vs[1..];
      assert vs == [p] + rest;
      forall q | q in rest
        ensures q.vision.Some?
      {
        assert q in vs;
      }
      GroupingIsPartition(rest);
      var head := if AsksForOcr(p) then [p] else [];
      var headA := if p.vision.Some? && !AsksForOcr(p) then [p] else [];
      assert OcrProperties(vs) == head + OcrProperties(rest);
      assert AnalysisProperties(vs) == headA + AnalysisProperties(rest);
      assert multiset(head) + multiset(headA) == multiset{p};
    }
  }

  /** The OCR list holds exactly the properties asking for Text, the analysis list exactly the
      rest, and no property is in both. */
  lemma GroupingByFeature(vs: seq<Property>)
    requires forall p :: p in vs ==> p.vision.Some?
    ensures forall p :: p in OcrProperties(vs) <==> p in vs && p.vision.value.visionType == Text
    ensures forall p :: p in AnalysisProperties(vs) <==> p in vs && p.vision.value.visionType != Text
    ensures forall p :: !(p in OcrProperties(vs) && p in AnalysisProperties(vs))
  {
  }

  /** No group has work when no property is both marked and empty. */
  predicate NothingToEnrich(props: seq<Property>, fields: Fields) {
    var vision := EmptyVisionProperties(props, fields);
    ThumbnailProperties(props, fields) == [] && OcrProperties(vision) == [] && AnalysisProperties(vision) == []
  }

  lemma NothingToEnrichMeansNoEmptyMarkedProperty(props: seq<Property>, fields: Fields)
    ensures NothingToEnrich(props, fields) <==>
      forall p :: p in props && IsEmpty(fields, p) ==> p.vision.None? && p.thumbnail.None?
  {
    var vision := EmptyVisionProperties(props, fields);
    if !NothingToEnrich(props, fields) {
      if OcrProperties(vision) != [] {
        assert OcrProperties(vision)[0] in OcrProperties(vision);
      } else if AnalysisProperties(vision) != [] {
        assert AnalysisProperties(vision)[0] in AnalysisProperties(vision);
      } else {
        assert ThumbnailProperties(props, fields)[0] in ThumbnailProperties(props, fields);
      }
    } else {
      forall p | p in props && IsEmpty(fields, p) ensures p.vision.None? && p.thumbnail.None? {
      }
    }
  }

  // ---- writing results ----

  /** What one group's backend call produced. */
  datatype GroupOutput =
    | AnalysisOutput(analysis: ImageAnalysis)
    | OcrOutput(lines: seq<string>)
    | ThumbnailOutput(source: seq<Byte>, generate: (seq<Byte>, Int32, Int32) -> seq<Byte>)

  /** The value a group's loop body stores into `p`, if any. Thumbnails go only to `Blob`
      properties, each generated at that property's own width and height. */
  function ValueFor(out: GroupOutput, p: Property): Option<Value> {
    match out
    case AnalysisOutput(res) =>
      if p.vision.Some? then MapAnalysis(p.vision.value.visionType, p.propertyType, res, p.vision.value.separator)
      else None
    case OcrOutput(lines) =>
      if p.vision.Some? then MapOcr(p.propertyType, lines, p.vision.value.separator) else None
    case ThumbnailOutput(source, generate) =>
      if p.propertyType == BlobType && p.thumbnail.Some? then
        Some(BlobValue(generate(source, p.thumbnail.value.width, p.thumbnail.value.height)))
      else None
  }

  /** One loop iteration: `p.SetValue(img, v)` when the body produces `v`. */
  function Stored(fields: Fields, p: Property, out: GroupOutput): Fields {
    match ValueFor(out, p)
    case Some(v) => fields[p.name := v]
    case None => fields
  }

  /** The `foreach` over a group's properties, in order. */
  function Applied(fields: Fields, props: seq<Property>, out: GroupOutput): Fields
    decreases |props|
  {
    if props == [] then fields else Applied(Stored(fields, props[0], out), props[1..], out)
  }

  /** The write one loop iteration performs, as a map. */
  function Write(p: Property, out: GroupOutput): Fields {
    match ValueFor(out, p) case Some(v) => map[p.name := v] case None => map[]
  }

  /** The writes a group performs, as a map: later properties win over earlier ones. */
  function Writes(props: seq<Property>, out: GroupOutput): Fields {
    if props == [] then map[] else Write(props[0], out) + Writes(props[1..], out)
  }

  /** One loop iteration overrides the fields with its write. */
  lemma StoredIsOverride(fields: Fields, p: Property, out: GroupOutput)
    ensures Stored(fields, p, out) == fields + Write(p, out)
  {
  }

  /** A group's loop overrides the fields with its writes and changes nothing else. */
  lemma {:induction false} AppliedIsOverride(fields: Fields, props: seq<Property>, out: GroupOutput)
    ensures Applied(fields, props, out) == fields + Writes(props, out)
    decreases |props|
  {
    if props != [] {
      var p := props[0];
      AppliedIsOverride(Stored(fields, p, out), props[1..], out);
      StoredIsOverride(fields, p, out);
      var first, rest := Write(p, out), Writes(props[1..], out);
      assert (fields + first) + rest == fields + (first + rest);
    }
  }

  /** Only properties the group has a value for are written. */
  lemma {:induction false} WritesKeys(props: seq<Property>, out: GroupOutput, k: string)
    ensures k in Writes(props, out) <==>
      exists i :: 0 <= i < |props| && props[i].name == k && ValueFor(out, props[i]).Some?
  {
    if props != [] {
      WritesKeys(props[1..], out, k);
      if k in Writes(props[1..], out) {
        var i :| 0 <= i < |props[1..]| && props[1..][i].name == k && ValueFor(out, props[1..][i]).Some?;
        assert props[i + 1].name == k;
      }
      if exists i :: 0 <= i < |props| && props[i].name == k && ValueFor(out, props[i]).Some? {
        var i :| 0 <= i < |props| && props[i].name == k && ValueFor(out, props[i]).Some?;
        if i > 0 {
          assert props[1..][i - 1] == props[i];
        }
      }
    }
  }

  /** With distinct names, each property with a value ends up holding exactly that value. */
  lemma {:induction false} WritesValue(props: seq<Property>, out: GroupOutput, i: nat)
    requires DistinctNames(props)
    requires i < |props| && ValueFor(out, props[i]).Some?
    ensures props[i].name in Writes(props, out)
    ensures Writes(props, out)[props[i].name] == ValueFor(out, props[i]).value
  {
    if i == 0 {
      WritesKeys(props[1..], out, props[0].name);
    } else {
      assert DistinctNames(props[1..]);
      WritesValue(props[1..], out, i - 1);
    }
  }

  /** Running a group's loop twice with the same backend output is the same as running it once. */
  lemma AppliedIdempotent(fields: Fields, props: seq<Property>, out: GroupOutput)
    ensures Applied(Applied(fields, props, out), props, out) == Applied(fields, props, out)
  {
    AppliedIsOverride(fields, props, out);
    AppliedIsOverride(fields + Writes(props, out), props, out);
    var w := Writes(props, out);
    assert (fields + w) + w == fields + w;
  }

  /** Every value a group writes fits the property's declared type, and only the thumbnail group
      writes `Blob` properties. */
  lemma WrittenValuesFit(props: seq<Property>, out: GroupOutput, k: string)
    requires k in Writes(props, out)
    ensures exists i :: (0 <= i < |props| && props[i].name == k && ValueFor(out, props[i]).Some? &&
      Fits(ValueFor(out, props[i]).value, props[i].propertyType) &&
      (props[i].propertyType == BlobType <==> out.ThumbnailOutput?))
  {
    WritesKeys(props, out, k);
    var i :| 0 <= i < |props| && props[i].name == k && ValueFor(out, props[i]).Some?;
    var p := props[i];
    match out
    case AnalysisOutput(res) =>
      MapAnalysisTotal(p.vision.value.visionType, p.propertyType, res, p.vision.value.separator);
    case OcrOutput(lines) =>
      MapOcrTotal(p.propertyType, lines, p.vision.value.separator);
    case ThumbnailOutput(_, _) =>
  }

  // ---- one pass over an image ----

  /** The three groups' outputs for the bytes they are sent. */
  function ThumbnailsFor(h: VisionHandler, bytes: seq<Byte>): GroupOutput {
    ThumbnailOutput(bytes, h.client.generateThumbnail)
  }

  function OcrFor(h: VisionHandler, bytes: seq<Byte>): GroupOutput {
    OcrOutput(OcrLines(h.client.recognizePrintedText(bytes)))
  }

  function AnalysisFor(h: VisionHandler, bytes: seq<Byte>): GroupOutput {
    AnalysisOutput(h.client.analyzeImage(bytes))
  }

  /** The fields after `HandleImage`, with the groups run one after another: thumbnails, then
      OCR, then analysis. The groups are chosen from the fields as they were on entry. */
  function Enriched(h: VisionHandler, props: seq<Property>, payload: seq<Byte>, fields: Fields): Fields {
    if NothingToEnrich(props, fields) then fields
    else
      var vision := EmptyVisionProperties(props, fields);
      var bytes := PreparedPayload(payload, h.scaleImage);
      var afterThumbnails := Applied(fields, ThumbnailProperties(props, fields), ThumbnailsFor(h, bytes));
      var afterOcr := Applied(afterThumbnails, OcrProperties(vision), OcrFor(h, bytes));
      Applied(afterOcr, AnalysisProperties(vision), AnalysisFor(h, bytes))
  }

  /** What each group writes during `HandleImage`. */
  function ThumbnailWrites(h: VisionHandler, props: seq<Property>, payload: seq<Byte>, fields: Fields): Fields {
    Writes(ThumbnailProperties(props, fields), ThumbnailsFor(h, PreparedPayload(payload, h.scaleImage)))
  }

  function OcrWrites(h: VisionHandler, props: seq<Property>, payload: seq<Byte>, fields: Fields): Fields {
    Writes(OcrProperties(EmptyVisionProperties(props, fields)), OcrFor(h, PreparedPayload(payload, h.scaleImage)))
  }

  function AnalysisWrites(h: VisionHandler, props: seq<Property>, payload: seq<Byte>, fields: Fields): Fields {
    Writes(AnalysisProperties(EmptyVisionProperties(props, fields)), AnalysisFor(h, PreparedPayload(payload, h.scaleImage)))
  }

  /** Thumbnails land only on Blob properties and the vision groups never write one, so two
      groups drawn from the same CLR type never write the same property. */
  lemma ThumbnailAndVisionWritesDisjoint(props: seq<Property>, thumbs: seq<Property>, others: seq<Property>,
                                         t: GroupOutput, o: GroupOutput)
    requires DistinctNames(props)
    requires forall p :: p in thumbs ==> p in props
    requires forall p :: p in others ==> p in props
    requires t.ThumbnailOutput? && !o.ThumbnailOutput?
    ensures Writes(thumbs, t).Keys !! Writes(others, o).Keys
  {
    forall k | k in Writes(thumbs, t) && k in Writes(others, o) ensures false {
      WrittenValuesFit(thumbs, t, k);
      var i :| 0 <= i < |thumbs| && thumbs[i].name == k && thumbs[i].propertyType == BlobType;
      WrittenValuesFit(others, o, k);
      var j :| 0 <= j < |others| && others[j].name == k && others[j].propertyType != BlobType;
      SameNameSameProperty(props, thumbs[i], others[j]);
    }
  }

  lemma OcrAndAnalysisWritesDisjoint(props: seq<Property>, vision: seq<Property>, o: GroupOutput, a: GroupOutput)
    requires DistinctNames(props)
    requires forall p :: p in vision ==> p in props
    ensures Writes(OcrProperties(vision), o).Keys !! Writes(AnalysisProperties(vision), a).Keys
  {
    var ocrs, descriptions := OcrProperties(vision), AnalysisProperties(vision);
    forall k | k in Writes(ocrs, o) && k in Writes(descriptions, a) ensures false {
      WritesKeys(ocrs, o, k);
      var i :| 0 <= i < |ocrs| && ocrs[i].name == k && ValueFor(o, ocrs[i]).Some?;
      WritesKeys(descriptions, a, k);
      var j :| 0 <= j < |descriptions| && descriptions[j].name == k && ValueFor(a, descriptions[j]).Some?;
      assert ocrs[i] in ocrs && descriptions[j] in descriptions;
      SameNameSameProperty(props, ocrs[i], descriptions[j]);
    }
  }

  /** `HandleImage` overrides the fields with the three groups' writes. */
  lemma EnrichedIsOverride(h: VisionHandler, props: seq<Property>, payload: seq<Byte>, fields: Fields)
    ensures Enriched(h, props, payload, fields) ==
      fields + ThumbnailWrites(h, props, payload, fields) + OcrWrites(h, props, payload, fields)
             + AnalysisWrites(h, props, payload, fields)
  {
    var vision := EmptyVisionProperties(props, fields);
    var bytes := PreparedPayload(payload, h.scaleImage);
    var wt, wo := ThumbnailWrites(h, props, payload, fields), OcrWrites(h, props, payload, fields);
    var wa := AnalysisWrites(h, props, payload, fields);
    if NothingToEnrich(props, fields) {
      assert wt == map[] && wo == map[] && wa == map[];
      assert fields + wt + wo + wa == fields;
    } else {
      AppliedIsOverride(fields, ThumbnailProperties(props, fields), ThumbnailsFor(h, bytes));
      AppliedIsOverride(fields + wt, OcrProperties(vision), OcrFor(h, bytes));
      AppliedIsOverride(fields + wt + wo, AnalysisProperties(vision), AnalysisFor(h, bytes));
    }
  }

  /** The source runs the groups concurrently. Their writes land on pairwise disjoint sets of
      properties (thumbnails only on Blob properties, OCR only on those asking for Text,
      analysis only on the others), so by `DisjointOverridesCommute` running them in any of
      the six orders gives `Enriched`; the reverse order is spelled out here. */
  lemma EnrichmentOrderIrrelevant(h: VisionHandler, props: seq<Property>, payload: seq<Byte>, fields: Fields)
    requires DistinctNames(props)
    ensures ThumbnailWrites(h, props, payload, fields).Keys !! OcrWrites(h, props, payload, fields).Keys
    ensures ThumbnailWrites(h, props, payload, fields).Keys !! AnalysisWrites(h, props, payload, fields).Keys
    ensures OcrWrites(h, props, payload, fields).Keys !! AnalysisWrites(h, props, payload, fields).Keys
    ensures Enriched(h, props, payload, fields) ==
      fields + AnalysisWrites(h, props, payload, fields) + OcrWrites(h, props, payload, fields)
             + ThumbnailWrites(h, props, payload, fields)
  {
    var vision := EmptyVisionProperties(props, fields);
    var bytes := PreparedPayload(payload, h.scaleImage);
    var thumbs := ThumbnailProperties(props, fields);
    ThumbnailAndVisionWritesDisjoint(props, thumbs, OcrProperties(vision), ThumbnailsFor(h, bytes), OcrFor(h, bytes));
    ThumbnailAndVisionWritesDisjoint(props, thumbs, AnalysisProperties(vision), ThumbnailsFor(h, bytes), AnalysisFor(h, bytes));
    OcrAndAnalysisWritesDisjoint(props, vision, OcrFor(h, bytes), AnalysisFor(h, bytes));
    EnrichedIsOverride(h, props, payload, fields);
    var wt, wo := ThumbnailWrites(h, props, payload, fields), OcrWrites(h, props, payload, fields);
    var wa := AnalysisWrites(h, props, payload, fields);
    DisjointOverridesCommute(fields, wt, wo, wa);
  }

  /** Overrides with pairwise disjoint key sets give the same map in each of the six orders. */
  lemma DisjointOverridesCommute(f: Fields, a: Fields, b: Fields, c: Fields)
    requires a.Keys !! b.Keys && a.Keys !! c.Keys && b.Keys !! c.Keys
    ensures f + a + b + c == f + a + c + b == f + b + a + c
    ensures f + a + b + c == f + b + c + a == f + c + a + b == f + c + b + a
  {
    SwapDisjoint(f + a, b, c);
    SwapDisjoint(f, a, b);
    SwapDisjoint(f + b, a, c);
    SwapDisjoint(f, a, c);
    SwapDisjoint(f + c, a, b);
    SwapDisjoint(f, b, c);
  }

  /** Two overrides with disjoint key sets commute. */
  lemma SwapDisjoint(g: Fields, x: Fields, y: Fields)
    requires x.Keys !! y.Keys
    ensures g + x + y == g + y + x
  {
  }

  /** Within one CLR type a name picks out one property. */
  lemma SameNameSameProperty(props: seq<Property>, p: Property, q: Property)
    requires DistinctNames(props)
    requires p in props && q in props && p.name == q.name
    ensures p == q
  {
    var i :| 0 <= i < |props| && props[i] == p;
    var j :| 0 <= j < |props| && props[j] == q;
  }

  /** Properties that already hold a value are never overwritten: every property `HandleImage`
      changes is an empty one carrying a vision or thumbnail attribute. */
  lemma EnrichmentKeepsFilledFields(h: VisionHandler, props: seq<Property>, payload: seq<Byte>, fields: Fields)
    ensures forall k :: k in fields && fields[k] != NullValue ==>
      k in Enriched(h, props, payload, fields) && Enriched(h, props, payload, fields)[k] == fields[k]
    ensures forall k :: k in Enriched(h, props, payload, fields) && (k !in fields || Enriched(h, props, payload, fields)[k] != fields[k]) ==>
      exists p :: p in props && p.name == k && IsEmpty(fields, p) && (p.vision.Some? || p.thumbnail.Some?)
  {
    var vision := EmptyVisionProperties(props, fields);
    var bytes := PreparedPayload(payload, h.scaleImage);
    EnrichedIsOverride(h, props, payload, fields);
    var r := Enriched(h, props, payload, fields);
    var wt, wo := ThumbnailWrites(h, props, payload, fields), OcrWrites(h, props, payload, fields);
    var wa := AnalysisWrites(h, props, payload, fields);
    forall k | k in wt || k in wo || k in wa
      ensures exists p :: p in props && p.name == k && IsEmpty(fields, p) && (p.vision.Some? || p.thumbnail.Some?)
    {
      if k in wt {
        WrittenByEmptyMarked(ThumbnailProperties(props, fields), ThumbnailsFor(h, bytes), k, props, fields);
      } else if k in wo {
        WrittenByEmptyMarked(OcrProperties(vision), OcrFor(h, bytes), k, props, fields);
      } else {
        WrittenByEmptyMarked(AnalysisProperties(vision), AnalysisFor(h, bytes), k, props, fields);
      }
    }
  }

  lemma WrittenByEmptyMarked(group: seq<Property>, out: GroupOutput, k: string, props: seq<Property>, fields: Fields)
    requires forall p :: p in group ==> p in props && IsEmpty(fields, p) && (p.vision.Some? || p.thumbnail.Some?)
    requires k in Writes(group, out)
    ensures exists p :: p in props && p.name == k && IsEmpty(fields, p) && (p.vision.Some? || p.thumbnail.Some?)
  {
    WritesKeys(group, out, k);
    var i :| 0 <= i < |group| && group[i].name == k && ValueFor(out, group[i]).Some?;
    assert group[i] in group;
  }

  // ---- the imperative handler ----

  /** A writable clone of an image content item: its properties and binary data are fixed,
      its field values are updated in place by the group loops. */
  class Image {
    const properties: seq<Property>
    const binaryData: seq<Byte>
    var fields: Fields

    constructor (properties: seq<Property>, binaryData: seq<Byte>, fields: Fields)
      ensures this.properties == properties && this.binaryData == binaryData && this.fields == fields
    {
      this.properties := properties;
      this.binaryData := binaryData;
      this.fields := fields;
    }
  }

  /** `TagAndDescription`: one analysis call, then a switch per property. */
  method TagAndDescription(h: VisionHandler, img: Image, bytes: seq<Byte>, props: seq<Property>)
    modifies img
    ensures img.fields == Applied(old(img.fields), props, AnalysisFor(h, bytes))
  {
    var res := h.client.analyzeImage(bytes);
    for i := 0 to |props|
      invariant Applied(img.fields, props[i..], AnalysisOutput(res)) == Applied(old(img.fields), props, AnalysisOutput(res))
    {
      var p := props[i];
      if p.vision.Some? {
        var atb := p.vision.value;
        var v := MapAnalysis(atb.visionType, p.propertyType, res, atb.separator);
        if v.Some? {
          img.fields := img.fields[p.name := v.value];
        }
      }
      assert props[i..][1..] == props[i + 1..];
    }
  }

  /** `GenerateOCR`: one recognition call, its lines flattened once, then one write per property. */
  method GenerateOcr(h: VisionHandler, img: Image, bytes: seq<Byte>, props: seq<Property>)
    modifies img
    ensures img.fields == Applied(old(img.fields), props, OcrFor(h, bytes))
  {
    var ocrResult := h.client.recognizePrintedText(bytes);
    var txt := OcrLines(ocrResult);
    for i := 0 to |props|
      invariant Applied(img.fields, props[i..], OcrOutput(txt)) == Applied(old(img.fields), props, OcrOutput(txt))
    {
      var p := props[i];
      if p.vision.Some? {
        var v := MapOcr(p.propertyType, txt, p.vision.value.separator);
        if v.Some? {
          img.fields := img.fields[p.name := v.value];
        }
      }
      assert props[i..][1..] == props[i + 1..];
    }
  }

  /** `GenerateThumbnails`: one thumbnail call per Blob property, at that property's size. */
  method GenerateThumbnails(h: VisionHandler, img: Image, bytes: seq<Byte>, props: seq<Property>)
    modifies img
    ensures img.fields == Applied(old(img.fields), props, ThumbnailsFor(h, bytes))
  {
    for i := 0 to |props|
      invariant Applied(img.fields, props[i..], ThumbnailsFor(h, bytes)) == Applied(old(img.fields), props, ThumbnailsFor(h, bytes))
    {
      var p := props[i];
      if p.propertyType == BlobType && p.thumbnail.Some? {
        var smartThumbAttribute := p.thumbnail.value;
        var thumbnail := h.client.generateThumbnail(bytes, smartThumbAttribute.width, smartThumbAttribute.height);
        img.fields := img.fields[p.name := BlobValue(thumbnail)];
      }
      assert props[i..][1..] == props[i + 1..];
    }
  }

  datatype WorkGroup = ThumbnailWork | OcrWork | AnalysisWork

  /** A started group: which one, the bytes its stream is opened over, and its properties. */
  datatype Task = Task(group: WorkGroup, input: seq<Byte>, props: seq<Property>)

  /** The task `HandleImage` adds for a group: one when the group is non-empty, none otherwise. */
  function TaskIfAny(g: WorkGroup, input: seq<Byte>, props: seq<Property>): (ts: seq<Task>)
    ensures |ts| <= 1
    ensures ts == [] <==> props == []
  {
    if props == [] then [] else [Task(g, input, props)]
  }

  /** The output a started group's backend call yields for `bytes`. */
  function OutputFor(h: VisionHandler, g: WorkGroup, bytes: seq<Byte>): GroupOutput {
    match g
    case ThumbnailWork => ThumbnailsFor(h, bytes)
    case OcrWork => OcrFor(h, bytes)
    case AnalysisWork => AnalysisFor(h, bytes)
  }

  /** `if (group.Any()) tasks.Add(Task.Run(() => Generate...(img, new MemoryStream(bytes), group)))`,
      with the task run to completion before the next group starts. */
  method StartGroup(h: VisionHandler, img: Image, g: WorkGroup, bytes: seq<Byte>, props: seq<Property>, tasks: seq<Task>)
    returns (tasks': seq<Task>)
    modifies img
    ensures tasks' == tasks + TaskIfAny(g, bytes, props)
    ensures img.fields == Applied(old(img.fields), props, OutputFor(h, g, bytes))
  {
    tasks' := tasks;
    if props != [] {
      tasks' := tasks' + [Task(g, bytes, props)];
      match g
      case ThumbnailWork => GenerateThumbnails(h, img, bytes, props);
      case OcrWork => GenerateOcr(h, img, bytes, props);
      case AnalysisWork => TagAndDescription(h, img, bytes, props);
    }
  }

  /** The tasks `HandleImage` starts, in the order it adds them. */
  function PlannedTasks(h: VisionHandler, props: seq<Property>, payload: seq<Byte>, fields: Fields): seq<Task> {
    var vision := EmptyVisionProperties(props, fields);
    var bytes := PreparedPayload(payload, h.scaleImage);
    TaskIfAny(ThumbnailWork, bytes, ThumbnailProperties(props, fields))
    + TaskIfAny(OcrWork, bytes, OcrProperties(vision))
    + TaskIfAny(AnalysisWork, bytes, AnalysisProperties(vision))
  }

  /** At most three tasks, one per non-empty group and none at all when no group has work; each
      gets its own stream over the same bytes, which are the original payload when it is under
      the size threshold. */
  lemma PlannedTasksShape(h: VisionHandler, props: seq<Property>, payload: seq<Byte>, fields: Fields)
    ensures var tasks := PlannedTasks(h, props, payload, fields);
      && |tasks| <= 3
      && (tasks == [] <==> NothingToEnrich(props, fields))
      && (forall i :: 0 <= i < |tasks| ==> tasks[i].props != [] && tasks[i].input == PreparedPayload(payload, h.scaleImage))
      && (!NeedsRescale(|payload|) ==> forall i :: 0 <= i < |tasks| ==> tasks[i].input == payload)
      && (forall i, j :: 0 <= i < j < |tasks| ==> tasks[i].group != tasks[j].group)
  {
  }

  /** `HandleImage`: choose the groups from the empty marked properties, and only when one of
      them has work, size the payload and run each non-empty group on the same bytes. */
  method HandleImage(h: VisionHandler, img: Image) returns (tasks: seq<Task>)
    modifies img
    ensures img.fields == Enriched(h, img.properties, img.binaryData, old(img.fields))
    ensures tasks == PlannedTasks(h, img.properties, img.binaryData, old(img.fields))
  {
    var fields := img.fields;
    var thumbs := ThumbnailProperties(img.properties, fields);
    var vision := EmptyVisionProperties(img.properties, fields);
    var ocrs := OcrProperties(vision);
    var descriptions := AnalysisProperties(vision);
    ghost var bytes' := PreparedPayload(img.binaryData, h.scaleImage);
    ghost var planned := TaskIfAny(ThumbnailWork, bytes', thumbs) + TaskIfAny(OcrWork, bytes', ocrs)
                         + TaskIfAny(AnalysisWork, bytes', descriptions);
    assert planned == PlannedTasks(h, img.properties, img.binaryData, fields);
    tasks := [];
    if thumbs != [] || ocrs != [] || descriptions != [] {
      var bytes := PreparedPayload(img.binaryData, h.scaleImage);
      tasks := StartGroup(h, img, ThumbnailWork, bytes, thumbs, tasks);
      tasks := StartGroup(h, img, OcrWork, bytes, ocrs, tasks);
      tasks := StartGroup(h, img, AnalysisWork, bytes, descriptions, tasks);
      assert tasks == planned by {
        assert [] + TaskIfAny(ThumbnailWork, bytes, thumbs) == TaskIfAny(ThumbnailWork, bytes, thumbs);
      }
    }
  }
}
