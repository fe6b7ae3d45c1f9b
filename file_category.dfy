/** The two categories an MS file can be used for (FileCategory). */
module FileCategories {
  import opened Wrappers

  datatype FileCategory = AnnotationCategory | ExternalQuantificationCategory

  /** name(): the enum constant's identifier. */
  function Name(c: FileCategory): string
  {
    match c
    case AnnotationCategory => "ANNOTATION_CATEGORY"
    case ExternalQuantificationCategory => "EXTERNAL_QUANTIFICATION_CATEGORY"
  }

  /** getLabel(): the text shown to the user. */
  function Label(c: FileCategory): string
  {
    match c
    case AnnotationCategory => "Annotation"
    case ExternalQuantificationCategory => "External Quantification"
  }

  /** getDescription(). */
  function Description(c: FileCategory): string
  {
    match c
    case AnnotationCategory => "File used for Annotation (such as MzXML/MZML"
    case ExternalQuantificationCategory => "File used for external quantification (such as eXtract, FullMS)"
  }

  /** lookUp: the category whose identifier is `key`; any other string finds nothing. */
  function LookUp(key: string): (r: Option<FileCategory>)
    ensures r.Some? <==> exists c :: Name(c) == key
    ensures r.Some? ==> Name(r.value) == key
  {
    if key == Name(AnnotationCategory) then Some(AnnotationCategory)
    else if key == Name(ExternalQuantificationCategory) then Some(ExternalQuantificationCategory)
    else None
  }

  /** findByLabel: the category with that label; any other string finds nothing. */
  function FindByLabel(text: string): (r: Option<FileCategory>)
    ensures r.Some? <==> exists c :: Label(c) == text
    ensures r.Some? ==> Label(r.value) == text
  {
    if text == Label(AnnotationCategory) then Some(AnnotationCategory)
    else if text == Label(ExternalQuantificationCategory) then Some(ExternalQuantificationCategory)
    else None
  }

  /** toList: the labels in declaration order, one per category. */
  function ToList(): (r: seq<string>)
    ensures |r| == 2
    ensures forall c :: Label(c) in r
    ensures forall k :: 0 <= k < |r| ==> FindByLabel(r[k]).Some? && Label(FindByLabel(r[k]).value) == r[k]
  {
    [Label(AnnotationCategory), Label(ExternalQuantificationCategory)]
  }

  /** Looking a category up by its identifier, or by its label, finds that category. */
  lemma LookUpInverts(c: FileCategory)
    ensures LookUp(Name(c)) == Some(c)
    ensures FindByLabel(Label(c)) == Some(c)
  {
  }

  /** A label is not an identifier: lookUp does not accept labels. */
  lemma LabelsAreNotNames(c: FileCategory)
    ensures LookUp(Label(c)).None?
  {
  }
}
