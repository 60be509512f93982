/** What the computer-vision backend returns, and the backend itself as three functions of
    the image bytes. Scores are passed through without arithmetic, so `real` stands for
    the backend's doubles. */
module VisionResults {
  import opened Attributes
  import opened Content

  datatype AdultInfo = AdultInfo(
    isAdultContent: bool,
    isRacyContent: bool,
    adultScore: real,
    racyScore: real)

  datatype Category = Category(name: string, score: real)

  /** Integer codes the backend assigns to the image's style. */
  datatype ImageType = ImageType(clipArtType: int, lineDrawingType: int)

  datatype ImageCaption = ImageCaption(text: string, confidence: real)

  datatype ImageDescription = ImageDescription(tags: seq<string>, captions: seq<ImageCaption>)

  datatype ImageTag = ImageTag(name: string, confidence: real)

  datatype ColorInfo = ColorInfo(
    dominantColorForeground: string,
    dominantColorBackground: string,
    accentColor: string,
    isBWImg: bool)

  /** `Gender` is carried as the text the backend renders for it. */
  datatype FaceDescription = FaceDescription(age: int, gender: string)

  /** The result of one analysis call with every visual feature requested. */
  datatype ImageAnalysis = ImageAnalysis(
    categories: seq<Category>,
    adult: AdultInfo,
    color: ColorInfo,
    imageType: ImageType,
    tags: seq<ImageTag>,
    description: ImageDescription,
    faces: seq<FaceDescription>)

  datatype OcrWord = OcrWord(text: string)

  datatype OcrLine = OcrLine(words: seq<OcrWord>)

  datatype OcrRegion = OcrRegion(lines: seq<OcrLine>)

  /** The result of one printed-text recognition call. */
  datatype OcrResult = OcrResult(regions: seq<OcrRegion>)

  /** The backend: image analysis, printed-text recognition and smart thumbnails, each a
      function of the bytes it is sent. */
  datatype VisionClient = VisionClient(
    analyzeImage: seq<Byte> -> ImageAnalysis,
    recognizePrintedText: seq<Byte> -> OcrResult,
    generateThumbnail: (seq<Byte>, Int32, Int32) -> seq<Byte>)
}
