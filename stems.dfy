/**
 * What the two stem-mastering panels share: the checkbox toggle over the
 * list of selected stem keys, a stem separation's per-stem file URLs, and
 * the mastering job sent for one stem.
 */
module Stems {
  import opened Wrappers
  import opened Seqs
  import opened Counting
  import opened Text

  /**
   * `toggleStem`: a selected key is filtered out, an unselected one is
   * appended at the end.
   */
  function Toggle(selected: seq<string>, key: string): (r: seq<string>)
    ensures key in r <==> key !in selected
    ensures forall k :: k != key ==> (k in r <==> k in selected)
  {
    if key in selected then
      var r := Filter(selected, (k: string) => k != key);
      forall k | k != key && k in selected ensures k in r {
        var i :| 0 <= i < |selected| && selected[i] == k;
      }
      r
    else selected + [key]
  }

  /** Toggling never creates a duplicate. */
  lemma ToggleKeepsDistinct(selected: seq<string>, key: string)
    requires Distinct(selected)
    ensures Distinct(Toggle(selected, key))
  {
    var keep := (k: string) => k != key;
    if key in selected {
      var r := Filter(selected, keep);
      FilterKeepsOrder(selected, keep);
      var idx := FilterIndices(selected, keep);
      forall i, j | 0 <= i < j < |r| ensures r[i] != r[j] {
        assert selected[idx[i]] == r[i] && selected[idx[j]] == r[j] && idx[i] < idx[j];
      }
    }
  }

  /** Ticking an unticked stem and unticking it again restores the selection exactly. */
  lemma {:induction false} ToggleTwice(selected: seq<string>, key: string)
    requires key !in selected
    ensures Toggle(Toggle(selected, key), key) == selected
  {
    var keep := (k: string) => k != key;
    FilterAppend(selected, [key], keep);
    FilterAll(selected, keep);
    FilterNone([key], keep);
  }

  /** A separation record: the song's track name and the URL of each separated stem, if any. */
  datatype Separation = Separation(trackName: string, stems: Option<map<string, string>>)

  /** `separation.stems?.[key]`: missing when the separation has no stems or none for that key. */
  function StemUrl(s: Separation, key: string): (url: Option<string>)
    ensures url.Some? <==> s.stems.Some? && key in s.stems.value
    ensures url.Some? ==> url.value == s.stems.value[key]
  {
    match s.stems
    case None => None
    case Some(m) => if key in m then Some(m[key]) else None
  }

  /** The payload of an `analyzeMastering` call for one stem. */
  datatype MasteringJob = MasteringJob(
    projectId: string,
    trackName: string,
    fileUrl: Option<string>,
    masteringType: string,
    stemType: string,
    targetLufs: Option<real>)

  /** `"<song> - <stem label>"`. */
  function JobTrackName(song: string, stemLabel: string): (name: string)
    ensures StartsWith(name, song) && EndsWith(name, stemLabel)
  {
    song + " - " + stemLabel
  }
}
