# Computer-vision enrichment for CMS images, in Dafny

This project models the enrichment layer of a content-management plugin that fills image
properties from a computer-vision backend, and the scheduled job that drives it.

Image properties are marked with one of two descriptors:

- a `VisionAttribute` names one of fifteen features and a separator;
- a `SmartThumbnailAttribute` gives a width and a height.

`VisionHandler.HandleImage` takes the properties that are still empty and sorts them into three
groups: thumbnails, OCR (feature `Text`) and analysis (every other feature). If any group has
work, it prepares the image bytes, rescaling them when the payload is 4,000,000 bytes or more.
It then runs one task per non-empty group. Each task writes the backend's answer into the
matching properties, converted to each property's declared type. `VisionTaggingJob.Execute` does
the following:

- lists every image of an eligible content type;
- enriches a writable clone of each image;
- saves it with `Publish` if it was published and `CheckIn` otherwise;
- reports progress;
- honours a stop flag that `Stop()` sets;
- ends with one of four messages.

Modules:

- `VisionTypes`: the closed feature enum.
- `Attributes`: the two descriptors and their constructors.
- `Content`: property type tags, values, properties, and the field map of an image.
- `VisionResults`: the backend's response records, and the backend as three functions.
- `Text`: `string.Join`, splitting, and `int` ⇄ decimal text.
- `Mapper`: the pure value computation of every feature on every destination type, and the OCR
  line extraction.
- `Handler`: grouping, the size threshold, and the three group loops as methods over a mutable
  `Image`. It also specifies their combined effect (`Enriched`) as a map override, and contains
  `HandleImage`.
- `TaggingJob`: the job class with its stop flag, status log and save log, and `Execute`.

The three group tasks run concurrently in the source; here they run one after the other. The
lemma `Handler.EnrichmentOrderIrrelevant` shows that they write pairwise-disjoint sets of
properties, and `Handler.DisjointOverridesCommute` shows that such writes give the same image in
each of the six orders.

A concurrent `Stop()` is modelled by the parameter `stopAt` of `Execute`:

- `Some(k)` with k below the number of items means the call arrives while item k is handled,
  before that item's stop check;
- `Some(n)` means it arrives after the last check;
- any larger value, or `None`, means it does not arrive during the run;
- the flag's value on entry covers a `Stop()` that came before the run.

## Model

| member | source | states |
|---|---|---|
| VisionTypes.Ordinal | src/Optimizely.Labs.ComputerVision/Attributes/VisionTypes.cs:3-34 | every feature has a declaration position below 15, and the feature listed at that position is the feature itself |
| VisionTypes.FeatureSetClosed | src/Optimizely.Labs.ComputerVision/Attributes/VisionTypes.cs:3-34 | the feature list has exactly 15 entries, contains every feature, has no repeats, starts with Description and ends with FacesAge |
| VisionTypes.OrdinalInjective | src/Optimizely.Labs.ComputerVision/Attributes/VisionTypes.cs:23-27 | two features have the same position exactly when they are the same feature, so the three colour features are distinct |
| VisionTypes.OneFeatureRoutedToOcr | src/Optimizely.Labs.ComputerVision/Attributes/VisionTypes.cs:11 | exactly one feature, the fourth declared (Text), goes to the OCR group; the other 14 do not |
| Attributes.DefaultVisionAttribute | src/Optimizely.Labs.ComputerVision/Attributes/VisionAttribute.cs:9-13 | the parameterless descriptor asks for Description, the first-declared feature, with separator "," |
| Attributes.NewVisionAttribute | src/Optimizely.Labs.ComputerVision/Attributes/VisionAttribute.cs:15-19 | the feature and the separator are stored exactly as given |
| Attributes.VisionAttributeDefaults | src/Optimizely.Labs.ComputerVision/Attributes/VisionAttribute.cs:9-19 | omitting the separator is the same as passing ",", and the parameterless descriptor is the two-argument one with the first feature |
| Attributes.DefaultSmartThumbnailAttribute | src/Optimizely.Labs.ComputerVision/Attributes/SmartThumbnailAttribute.cs:9-13 | the parameterless thumbnail descriptor is 100 wide and 100 high |
| Attributes.NewSmartThumbnailAttribute | src/Optimizely.Labs.ComputerVision/Attributes/SmartThumbnailAttribute.cs:15-19 | width and height are stored exactly as given, each independently, with no clamping |
| Text.SplitJoin | src/Optimizely.Labs.ComputerVision/VisionHandler.cs:161 | a non-empty list of parts (any of which may be empty) joined with a one-character separator that none contains splits back into exactly those parts |
| Text.NatToString | src/Optimizely.Labs.ComputerVision/VisionTaggingJob.cs:73 | the decimal text of a count is non-empty, all digits, and has no leading zero unless the count is 0 |
| Text.IntToString | src/Optimizely.Labs.ComputerVision/VisionHandler.cs:215 | the text of an age is non-empty and starts with '-' exactly when the age is negative |
| Text.ParseIntToString | src/Optimizely.Labs.ComputerVision/VisionHandler.cs:215 | the text of an age reads back as that age |
| Text.IntToStringInjective | src/Optimizely.Labs.ComputerVision/VisionHandler.cs:215 | two ages have the same text exactly when they are equal |
| Mapper.TagNames | src/Optimizely.Labs.ComputerVision/VisionHandler.cs:161-169 | one name per tag, in response order |
| Mapper.CategoryNames | src/Optimizely.Labs.ComputerVision/VisionHandler.cs:110 | one name per category, in response order |
| Mapper.CaptionTexts | src/Optimizely.Labs.ComputerVision/VisionHandler.cs:132-136 | one text per caption, in response order |
| Mapper.FaceSummaries | src/Optimizely.Labs.ComputerVision/VisionHandler.cs:202 | one summary per face, in face order |
| Mapper.FaceAges | src/Optimizely.Labs.ComputerVision/VisionHandler.cs:215 | one age text per face, in face order |
| Mapper.FaceGenders | src/Optimizely.Labs.ComputerVision/VisionHandler.cs:227 | one gender per face, in face order |
| Mapper.MapAnalysisTotal | src/Optimizely.Labs.ComputerVision/VisionHandler.cs:96-240 | the analysis switch produces a value exactly for the supported (feature, type) pairs of an independent table; what it produces fits the property's type; it never targets a Blob, and Text never produces a value there |
| Mapper.TagsMapping | src/Optimizely.Labs.ComputerVision/VisionHandler.cs:158-171 | `string` gets the tag names joined by the separator, and `string[]` and `IList<string>` get the names in order; the joined text splits back into the names |
| Mapper.CategoriesMapping | src/Optimizely.Labs.ComputerVision/VisionHandler.cs:109-119 | `string[]` gets the category names and `string` gets them joined, for which a split round trip holds; `IList<string>` is left untouched |
| Mapper.DescriptionMapping | src/Optimizely.Labs.ComputerVision/VisionHandler.cs:128-138 | `string` gets the first caption text, or null with no captions; `string[]` gets all captions in order |
| Mapper.FlagAndScoreMapping | src/Optimizely.Labs.ComputerVision/VisionHandler.cs:98-178 | Adult and Racy give `bool` the flag and `double` the score; ClipArt and LineDrawing give `bool` the test code == 0; B&W gives `bool` its flag; every other type is left untouched |
| Mapper.ColourMapping | src/Optimizely.Labs.ComputerVision/VisionHandler.cs:180-199 | each of the three colour features writes its own colour field to a `string`; when the three colours differ, so do the three values written |
| Mapper.FacesMapping | src/Optimizely.Labs.ComputerVision/VisionHandler.cs:201-236 | Faces, FacesAge and FacesGender give `string[]` the per-face list and `string` that list joined by the separator |
| Mapper.FacesGenderArrayThrowsAsWritten | src/Optimizely.Labs.ComputerVision/VisionHandler.cs:226-235 | as written, FacesGender hands a `string[]` property an array of the gender enum, so `SetValue` throws where the corrected switch stores the gender names; for every other type the as-written arm and the corrected switch agree |
| Mapper.FaceTexts | src/Optimizely.Labs.ComputerVision/VisionHandler.cs:202 | each face summary is the gender, a space and the age text, and the age text reads back as the age |
| Mapper.WordTexts | src/Optimizely.Labs.ComputerVision/VisionHandler.cs:248 | one text per word, in order |
| Mapper.LineTexts | src/Optimizely.Labs.ComputerVision/VisionHandler.cs:248 | one text per line, each the line's words joined by a single space |
| Mapper.Paragraphs | src/Optimizely.Labs.ComputerVision/VisionHandler.cs:265 | each line becomes "<p>" + line + "</p>", in order |
| Mapper.RegionLinesAppend | src/Optimizely.Labs.ComputerVision/VisionHandler.cs:248 | flattening the regions distributes over concatenation of regions |
| Mapper.RegionLinesCount | src/Optimizely.Labs.ComputerVision/VisionHandler.cs:248 | the flattened list has one entry per line of every region, and one region gives exactly its own lines |
| Mapper.LineWords | src/Optimizely.Labs.ComputerVision/VisionHandler.cs:248 | a line's text splits on spaces back into its words when no word contains a space |
| Mapper.JoinEmptyAppend | src/Optimizely.Labs.ComputerVision/VisionHandler.cs:265 | joining with "" distributes over concatenation |
| Mapper.XhtmlParagraphs | src/Optimizely.Labs.ComputerVision/VisionHandler.cs:265 | the XHTML text of a concatenation of line lists is the concatenation of their XHTML texts; no lines give "", and one line gives one paragraph |
| Mapper.MapOcrTotal | src/Optimizely.Labs.ComputerVision/VisionHandler.cs:249-268 | OCR writes exactly to `string[]` (the lines), `string` (the lines joined by the separator, which splits back into them) and `XhtmlString` (the concatenated paragraphs), always with a fitting value |
| Handler.EnabledAsWrittenIgnoresOptions | src/Optimizely.Labs.ComputerVision/VisionHandler.cs:21-31 | as written, the handler reports enabled for every configuration, including an empty key and endpoint |
| Handler.Enabled | src/Optimizely.Labs.ComputerVision/VisionHandler.cs:21-31 | corrected: enabled exactly when both the subscription key and the endpoint are set |
| Handler.PreparedPayload | src/Optimizely.Labs.ComputerVision/VisionHandler.cs:55-64 | below 4,000,000 bytes the original bytes are passed on unchanged; at or above it, the rescaled image |
| Handler.EmptyVisionProperties | src/Optimizely.Labs.ComputerVision/VisionHandler.cs:38 | exactly the vision-marked properties that are empty; names stay distinct |
| Handler.ThumbnailProperties | src/Optimizely.Labs.ComputerVision/VisionHandler.cs:35 | exactly the thumbnail-marked properties that are empty |
| Handler.OcrProperties | src/Optimizely.Labs.ComputerVision/VisionHandler.cs:39-44 | exactly the properties whose vision descriptor asks for Text |
| Handler.AnalysisProperties | src/Optimizely.Labs.ComputerVision/VisionHandler.cs:46-50 | exactly the vision-marked properties whose descriptor asks for anything but Text |
| Handler.GroupingIsPartition | src/Optimizely.Labs.ComputerVision/VisionHandler.cs:38-50 | as multisets, the OCR list and the analysis list add up to the empty vision-marked list |
| Handler.GroupingByFeature | src/Optimizely.Labs.ComputerVision/VisionHandler.cs:38-50 | OCR holds exactly the Text properties, analysis exactly the rest, and no property is in both |
| Handler.NothingToEnrichMeansNoEmptyMarkedProperty | src/Optimizely.Labs.ComputerVision/VisionHandler.cs:52 | all three groups are empty exactly when no empty property carries a vision or thumbnail descriptor |
| Handler.StoredIsOverride | src/Optimizely.Labs.ComputerVision/VisionHandler.cs:93-241 | one loop iteration overrides the fields with that property's write and changes nothing else |
| Handler.AppliedIsOverride | src/Optimizely.Labs.ComputerVision/VisionHandler.cs:93-241 | a group's loop overrides the fields with the group's writes and changes nothing else |
| Handler.WritesKeys | src/Optimizely.Labs.ComputerVision/VisionHandler.cs:93-241 | a property is written exactly when the group has a value for some property of that name |
| Handler.WritesValue | src/Optimizely.Labs.ComputerVision/VisionHandler.cs:93-241 | with distinct names, each property with a value ends up holding exactly its own value |
| Handler.AppliedIdempotent | src/Optimizely.Labs.ComputerVision/VisionHandler.cs:93-241 | running a group's loop twice on the same answer gives what running it once gives |
| Handler.WrittenValuesFit | src/Optimizely.Labs.ComputerVision/VisionHandler.cs:273-284 | every written key is the name of a property the group has a value for; that value fits the property's type, and the property is a Blob exactly when the write is a thumbnail |
| Handler.ThumbnailAndVisionWritesDisjoint | src/Optimizely.Labs.ComputerVision/VisionHandler.cs:273-284 | thumbnails and any vision group never write the same property |
| Handler.OcrAndAnalysisWritesDisjoint | src/Optimizely.Labs.ComputerVision/VisionHandler.cs:38-50 | the OCR group and the analysis group never write the same property |
| Handler.EnrichedIsOverride | src/Optimizely.Labs.ComputerVision/VisionHandler.cs:52-86 | the image after `HandleImage` is the old fields overridden by the thumbnail, OCR and analysis writes |
| Handler.EnrichmentOrderIrrelevant | src/Optimizely.Labs.ComputerVision/VisionHandler.cs:68-85 | the three groups' writes are pairwise disjoint, and the reverse order gives the same image |
| Handler.DisjointOverridesCommute | src/Optimizely.Labs.ComputerVision/VisionHandler.cs:68-85 | three overrides with pairwise-disjoint keys give the same map in all six orders |
| Handler.SameNameSameProperty | src/Optimizely.Labs.ComputerVision/VisionHandler.cs:38 | with distinct names, a property is determined by its name |
| Handler.EnrichmentKeepsFilledFields | src/Optimizely.Labs.ComputerVision/VisionHandler.cs:35-50 | a field that already holds a value is never changed, and every changed field belongs to an empty marked property |
| Handler.WrittenByEmptyMarked | src/Optimizely.Labs.ComputerVision/VisionHandler.cs:35-50 | every key a group writes is the name of an empty property with a vision or thumbnail descriptor |
| Handler.Image.constructor | src/Optimizely.Labs.ComputerVision/VisionTaggingJob.cs:62 | the writable clone holds the stored properties, bytes and field values |
| Handler.TagAndDescription | src/Optimizely.Labs.ComputerVision/VisionHandler.cs:89-243 | the loop leaves the image's fields equal to the analysis answer applied property by property, in order |
| Handler.GenerateOcr | src/Optimizely.Labs.ComputerVision/VisionHandler.cs:245-269 | the loop leaves the fields equal to the recognised lines applied property by property |
| Handler.GenerateThumbnails | src/Optimizely.Labs.ComputerVision/VisionHandler.cs:271-286 | the loop leaves the fields equal to each Blob property's thumbnail applied in order |
| Handler.TaskIfAny | src/Optimizely.Labs.ComputerVision/VisionHandler.cs:69-81 | a group contributes one task when it has properties and none otherwise |
| Handler.StartGroup | src/Optimizely.Labs.ComputerVision/VisionHandler.cs:69-81 | starting a group appends its task, if any, and applies its loop to the image |
| Handler.PlannedTasksShape | src/Optimizely.Labs.ComputerVision/VisionHandler.cs:52-81 | at most three tasks, in distinct groups, none exactly when nothing needs enriching; each has properties and the same prepared bytes, which are the original payload under the threshold |
| Handler.HandleImage | src/Optimizely.Labs.ComputerVision/VisionHandler.cs:33-87 | the image ends as `Enriched` of its old fields, and the tasks started are the planned ones |
| TaggingJob.ActionFor | src/Optimizely.Labs.ComputerVision/VisionTaggingJob.cs:65-69 | Publish exactly for a published item, CheckIn for every other status |
| TaggingJob.EligibleImagesExactly | src/Optimizely.Labs.ComputerVision/VisionTaggingJob.cs:52-57 | an item is swept exactly when some content type lists it that subclasses `ImageData` and has a vision-marked property |
| TaggingJob.ProgressMessagesCount | src/Optimizely.Labs.ComputerVision/VisionTaggingJob.cs:72-73 | the i-th progress status reports i + 1 images handled |
| TaggingJob.SavesForSnoc | src/Optimizely.Labs.ComputerVision/VisionTaggingJob.cs:71 | handling one more item appends exactly its save |
| TaggingJob.FramedNumberInjective | src/Optimizely.Labs.ComputerVision/VisionTaggingJob.cs:73-93 | a count framed by fixed text can be read back |
| TaggingJob.TerminalMessagesDistinct | src/Optimizely.Labs.ComputerVision/VisionTaggingJob.cs:76-93 | the four terminal messages are pairwise distinct and differ from every status |
| TaggingJob.CountedMessagesInjective | src/Optimizely.Labs.ComputerVision/VisionTaggingJob.cs:76-93 | the stopped and completed messages determine their counts |
| TaggingJob.StatusTextInjective | src/Optimizely.Labs.ComputerVision/VisionTaggingJob.cs:44-73 | different statuses have different texts |
| TaggingJob.OutcomeCases | src/Optimizely.Labs.ComputerVision/VisionTaggingJob.cs:49-93 | at most n items handled; a disabled handler gives the not-enabled message; a stop seen after item k gives "Job stopped" with k + 1; completion happens exactly when no stop is ever signalled, with all n handled; "Stop of job was called" happens exactly when the flag is set where no check sees it |
| TaggingJob.StopAfterFirstOfFive | src/Optimizely.Labs.ComputerVision/VisionTaggingJob.cs:74-77 | a stop during the first of five items ends the run with "Job stopped - 1 images tagged." |
| TaggingJob.FirstStopSeen | src/Optimizely.Labs.ComputerVision/VisionTaggingJob.cs:74-77 | the stop check that ends the loop, if any, is at one of the items |
| TaggingJob.VisionTaggingJob.constructor | src/Optimizely.Labs.ComputerVision/VisionTaggingJob.cs:24-27 | a new job is not stopped, has reported nothing and saved nothing |
| TaggingJob.VisionTaggingJob.Stop | src/Optimizely.Labs.ComputerVision/VisionTaggingJob.cs:32-35 | sets the stop flag and touches nothing else, so the flag never goes back down and a second call changes nothing |
| TaggingJob.VisionTaggingJob.EnrichedClone | src/Optimizely.Labs.ComputerVision/VisionTaggingJob.cs:62-69 | the record saved for an item is its enriched clone with the action the item's status calls for |
| TaggingJob.VisionTaggingJob.TagOne | src/Optimizely.Labs.ComputerVision/VisionTaggingJob.cs:62-73 | one item is saved and then reported, extending both logs by exactly one entry |
| TaggingJob.VisionTaggingJob.StopMayArrive | src/Optimizely.Labs.ComputerVision/VisionTaggingJob.cs:32-35 | the flag is raised exactly when the concurrent stop arrives at that point |
| TaggingJob.VisionTaggingJob.Sweep | src/Optimizely.Labs.ComputerVision/VisionTaggingJob.cs:60-81 | the loop handles the number of items the stop rule allows, with one save and one status per item in order, and says whether a check saw the flag |
| TaggingJob.VisionTaggingJob.Execute | src/Optimizely.Labs.ComputerVision/VisionTaggingJob.cs:41-94 | reports "Preparing" first, then one status per handled item; saves exactly the handled items' enriched clones in order, and none when disabled; returns the terminal message `FinalMessage` gives; the stop flag ends set exactly when it was set or a stop arrived during the run |

## Left out

- The backend calls `AnalyzeImage`, `IdentifyText` and `MakeSmartThumbnail` (network access to the vision service) are
  the three functions of `VisionClient`, given as inputs. The feature list `AnalyzeImage` requests is not modelled, because
  it only shapes the remote call.
- Blob creation and stream copying in `GenerateThumbnails` are storage I/O. A thumbnail is stored as its bytes, so the
  identity of the new blob and its container are not modelled.
- `ScaleImage` and the JPEG re-encoding use floating-point ratios and GDI bitmaps. They are one uninterpreted function
  of the bytes, so the model states nothing about the rescaled size.
- `Task.Run` and `Task.WaitAll`: the groups run one after the other, and `Handler.EnrichmentOrderIrrelevant` stands in for
  the concurrency. Interleavings inside one property write are not modelled.
- Exceptions are not modelled: a failing backend call, a failing save, the rethrow in `AnalyzeImage`, and the throwing
  `SetValue` of the FacesGender finding below.
- Mapper.MapAnalysisTotal: states the corrected switch, in which (FacesGender, `string[]`) receives the gender names. As
  written that pair makes `SetValue` throw (see Findings), and the fault that then ends the analysis task, `HandleImage`
  and the job is not modelled.
- Mapper.FacesMapping: states the corrected FacesGender arm for `string[]` (the gender names). As written that write
  throws (see Findings), and what follows from the throw is not modelled.
- `Thread.Sleep(10000)` between items is timing only.
- The reflection helpers `GetEmptyPropertiesWithAttribute`, `PropertiesWithVisionAttributes` and `GetCustomAttribute*`
  are not part of this model. Properties are an explicit list, and "empty" means the property has no value or holds
  null. Each property carries at most one descriptor of each kind.
- The CMS services are given as inputs: the content-type list, the usage lookup and the content repository. `Save` is
  recorded in a log, and `OnStatusChanged` in a status log.
- `CognitiveInit.cs`, the event registration and lifecycle wiring, is not part of this model. Nor is
  `ComputeVisionExtensions.cs`, the dependency-injection and option binding.
- A null separator is not modelled, because strings here cannot be null.
- Face gender is the enum value's name, which is what `string.Join` and string concatenation make of it. Scores are `real` rather than `double`.
- `TaggingJob.VisionTaggingJob.Execute`: the counter is unbounded, so the `int` overflow past 2^31 - 1 items is not
  modelled.
- `TaggingJob.VisionTaggingJob.Execute` uses the corrected `Handler.Enabled`. Under `Handler.EnabledAsWritten` the
  not-enabled branch can never be taken.

## Findings

| source | as written | input that shows it | evidently intended | confidence | as-written member | corrected member |
|---|---|---|---|---|---|---|
| src/Optimizely.Labs.ComputerVision/VisionHandler.cs:21-31 | `Enabled` tests the client field for null, but the constructor assigns a new client unconditionally, so `Enabled` is always true | any options: `Enabled` is true, so the job's "Vision is not enabled in app settings" message is unreachable | enabled only when a subscription key and an endpoint are configured | medium, not executed | Handler.EnabledAsWritten (shown by Handler.EnabledAsWrittenIgnoresOptions) | Handler.Enabled |
| src/Optimizely.Labs.ComputerVision/VisionHandler.cs:226-235 | FacesGender builds `genders` from the faces' gender enum, so for a `string[]` property `SetValue` is handed an array of the enum type, which is not a `string[]`, and throws | an image with any face list and an empty `string[]` property marked FacesGender: the analysis task faults, `WaitAll` rethrows, and the job stops with the exception | the gender names stored as a `string[]`, as the `string` branch and the Faces and FacesAge arms do | medium, not executed | Mapper.FacesGenderAsWritten (shown by Mapper.FacesGenderArrayThrowsAsWritten) | Mapper.MapAnalysis (shown by Mapper.FacesMapping) |
