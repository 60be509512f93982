/** The two property attributes that mark a field for enrichment. */
module Attributes {
  import opened VisionTypes

  /** C# `int`: the width and height of a thumbnail request. */
  type Int32 = x: int | -0x8000_0000 <= x < 0x8000_0000

  /** The separator both constructors fall back on. */
  const DefaultSeparator: string := ","

  /** `[Vision(...)]`: which feature fills the property, and the separator used when a list
      of values is written into a single string property. */
  datatype VisionAttribute = VisionAttribute(visionType: VisionType, separator: string)

  /** The parameterless constructor. */
  function DefaultVisionAttribute(): (a: VisionAttribute)
    ensures a.visionType == Description && a.visionType == AllFeatures[0]
    ensures a.separator == ","
  {
    VisionAttribute(Description, DefaultSeparator)
  }

  /** The two-argument constructor, whose separator is optional. The separator is stored
      verbatim, without validation. */
  function NewVisionAttribute(typeOfVision: VisionType, separator: string := DefaultSeparator): (a: VisionAttribute)
    ensures a.visionType == typeOfVision
    ensures a.separator == separator
  {
    VisionAttribute(typeOfVision, separator)
  }

  /** Omitting the separator is the same as passing ",", and the parameterless constructor is the
      two-argument one applied to the first feature. */
  lemma VisionAttributeDefaults(f: VisionType)
    ensures NewVisionAttribute(f) == NewVisionAttribute(f, ",")
    ensures DefaultVisionAttribute() == NewVisionAttribute(AllFeatures[0])
  {
  }

  /** `[SmartThumbnail(...)]`: the size of the thumbnail generated into a Blob property. */
  datatype SmartThumbnailAttribute = SmartThumbnailAttribute(width: Int32, height: Int32)

  const DefaultThumbnailSide: Int32 := 100

  /** The parameterless constructor: a 100 by 100 thumbnail. */
  function DefaultSmartThumbnailAttribute(): (a: SmartThumbnailAttribute)
    ensures a.width == 100 && a.height == 100
  {
    SmartThumbnailAttribute(DefaultThumbnailSide, DefaultThumbnailSide)
  }

  /** The explicit constructor: each dimension is stored exactly as given, with no clamping,
      and independently of the other. */
  function NewSmartThumbnailAttribute(width: Int32, height: Int32): (a: SmartThumbnailAttribute)
    ensures a.width == width && a.height == height
  {
    SmartThumbnailAttribute(width, height)
  }
}
