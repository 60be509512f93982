/** The closed set of vision features a property can ask for (the `VisionTypes` enum). */
module VisionTypes {

  /** The fifteen members, in declaration order. */
  datatype VisionType =
    | Description
    | Tags
    | Categories
    | Text
    | Adult
    | Racy
    | ClipArt
    | LineDrawing
    | BlackAndWhite
    | AccentColor
    | DominantBackgroundColor
    | DominantForegroundColor
    | Faces
    | FacesGender
    | FacesAge

  /** Every member, listed in declaration order. */
  const AllFeatures: seq<VisionType> :=
    [Description, Tags, Categories, Text, Adult, Racy, ClipArt, LineDrawing,
     BlackAndWhite, AccentColor, DominantBackgroundColor, DominantForegroundColor,
     Faces, FacesGender, FacesAge]

  /** The underlying enum value C# gives each member: its position in the declaration. */
  function Ordinal(f: VisionType): (k: nat)
    ensures k < |AllFeatures| && AllFeatures[k] == f
  {
    match f
    case Description => 0
    case Tags => 1
    case Categories => 2
    case Text => 3
    case Adult => 4
    case Racy => 5
    case ClipArt => 6
    case LineDrawing => 7
    case BlackAndWhite => 8
    case AccentColor => 9
    case DominantBackgroundColor => 10
    case DominantForegroundColor => 11
    case Faces => 12
    case FacesGender => 13
    case FacesAge => 14
  }

  /** The feature served by the OCR work group rather than by image analysis. */
  predicate RoutedToOcr(f: VisionType) {
    f == Text
  }

  /** The set is closed: exactly fifteen distinct members, Description first, FacesAge last. */
  lemma FeatureSetClosed()
    ensures |AllFeatures| == 15
    ensures forall f: VisionType :: f in AllFeatures
    ensures forall i, j :: 0 <= i < j < |AllFeatures| ==> AllFeatures[i] != AllFeatures[j]
    ensures AllFeatures[0] == Description && AllFeatures[14] == FacesAge
  {
    forall f: VisionType ensures f in AllFeatures {
      assert AllFeatures[Ordinal(f)] == f;
    }
    forall i, j | 0 <= i < j < |AllFeatures| ensures AllFeatures[i] != AllFeatures[j] {
      assert Ordinal(AllFeatures[i]) == i;
      assert Ordinal(AllFeatures[j]) == j;
    }
  }

  /** Documentation only, a corollary of `Ordinal`'s contract: enum values are distinct per
      member, so converting to the value loses nothing. */
  lemma OrdinalInjective(f: VisionType, g: VisionType)
    ensures Ordinal(f) == Ordinal(g) <==> f == g
  {
  }

  /** Text, at position 3, is the only member that goes to the OCR group; the other fourteen
      positions hold the features served by image analysis. */
  lemma OneFeatureRoutedToOcr()
    ensures forall f :: RoutedToOcr(f) <==> Ordinal(f) == 3
    ensures forall k :: 0 <= k < |AllFeatures| ==> (RoutedToOcr(AllFeatures[k]) <==> k == 3)
  {
    forall k | 0 <= k < |AllFeatures| ensures RoutedToOcr(AllFeatures[k]) <==> k == 3 {
      assert Ordinal(AllFeatures[k]) == k by {
        FeatureSetClosed();
      }
    }
  }
}
