/** `LabelsDict`: nice axis and legend labels, looked up with the label itself as fallback. */
module Labels {
  import opened Wrappers

  class LabelsDict {
    var labels: map<string, string>

    /**
     * Empty, then updated with the additional labels when given. The example
     * labels for `latex_version` sit inside a string literal, so the version
     * has no effect on the contents.
     */
    constructor (latexVersion: string, additional: Option<map<string, string>>)
      ensures labels == if additional.Some? then additional.value else map[]
    {
      labels := map[];
      if additional.Some? {
        labels := labels + additional.value;
      }
    }

    /** `get_nice_label`: the mapped label, or the label itself when it is unknown. */
    function NiceLabel(key: string): (r: string)
      reads this
      ensures key in labels ==> r == labels[key]
      ensures key !in labels ==> r == key
    {
      if key in labels then labels[key] else key
    }
  }

  /** A label changes only when it is a key, and then into one of the stored labels. */
  lemma NiceLabelChanges(d: LabelsDict, key: string)
    ensures d.NiceLabel(key) != key ==> key in d.labels && d.NiceLabel(key) in d.labels.Values
  {
    if key in d.labels {
      assert d.labels[key] in d.labels.Values;
    }
  }

  /** With no additional labels every label is returned unchanged. */
  lemma NiceLabelIdentity(d: LabelsDict, key: string)
    requires d.labels == map[]
    ensures d.NiceLabel(key) == key
  {
  }
}
