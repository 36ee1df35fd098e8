/**
 * Project save/load (Core/AudioEngine/ProjectManager.cpp): the engine's track
 * list is written to a JUCE ValueTree and read back from one. The ValueTree is
 * modelled in memory (type, properties, children). A tree read back from its
 * XML text holds every property as the string it was written as (`XmlForm`);
 * the file system's outcomes enter as parameters.
 */
module ProjectManagement {
  import opened Wrappers
  import opened Tracks
  import opened Mixing
  import opened Seqs
  import opened Text
  import opened Numerals

  const RootType: string := "SignalForgeProject"
  const TracksType: string := "Tracks"
  const TrackType: string := "Track"
  const DefaultProjectName: string := "Untitled Project"
  const DefaultTrackName: string := "Track"

  /** A `juce::var` property value of the kinds the project file uses. */
  datatype Value = Text(s: string) | Number(x: real) | Flag(b: bool)

  /** A `juce::ValueTree` node. */
  datatype Tree = Tree(typ: string, props: map<string, Value>, children: seq<Tree>)

  /** What the project file records of one track. */
  datatype TrackState = TrackState(name: string, gain: real, muted: bool, solo: bool)

  /** A property read as a string (`var::toString`): text as it is, a flag as "1" or "0", a number in decimal. */
  function AsText(v: Value): (text: string)
    ensures v.Text? ==> text == v.s
    ensures v.Flag? ==> text == (if v.b then "1" else "0")
    ensures v.Number? ==> text == NumberText(v.x)
  {
    match v
    case Text(s) => s
    case Flag(b) => if b then "1" else "0"
    case Number(x) => NumberText(x)
  }

  /** A property read as a number: a flag is 1 or 0, and text is read as the decimal numeral it starts with. */
  function AsReal(v: Value): (x: real)
    ensures v.Number? ==> x == v.x
    ensures v.Flag? ==> x == (if v.b then 1.0 else 0.0)
    ensures v.Text? ==> x == RealValue(v.s)
  {
    match v
    case Number(x) => x
    case Flag(b) => if b then 1.0 else 0.0
    case Text(s) => RealValue(s)
  }

  /**
   * A property read as a bool: a number is true when it is not 0; text is
   * true when its integer value is not 0 or it trims to "true" or "yes" in
   * any letter case.
   */
  function AsBool(v: Value): bool {
    match v
    case Flag(b) => b
    case Number(x) => x != 0.0
    case Text(s) => IntValue(s) != 0 || EqualsIgnoreCase(Trim(s), "true") || EqualsIgnoreCase(Trim(s), "yes")
  }

  /**
   * How each kind reads as a bool: a flag as itself, a number as "not 0";
   * text that trims to "true" or "yes", in any letter case, as true whatever
   * its integer value, and any other text as "its integer value is not 0".
   */
  lemma AsBoolCases(v: Value)
    ensures v.Flag? ==> AsBool(v) == v.b
    ensures v.Number? ==> (AsBool(v) <==> v.x != 0.0)
    ensures v.Text? && (EqualsIgnoreCase(Trim(v.s), "true") || EqualsIgnoreCase(Trim(v.s), "yes")) ==> AsBool(v)
    ensures v.Text? && !AsBool(v) ==> IntValue(v.s) == 0
    ensures v.Text? && IntValue(v.s) == 0 && !EqualsIgnoreCase(Trim(v.s), "true") && !EqualsIgnoreCase(Trim(v.s), "yes")
         ==> !AsBool(v)
  {
  }

  /**
   * The tree `ValueTree::fromXml` rebuilds from the text `toXmlString`
   * writes for `t`: the same types and structure, with every property the
   * string it was printed as.
   */
  function XmlForm(t: Tree): (r: Tree)
    ensures r.typ == t.typ && r.props.Keys == t.props.Keys && |r.children| == |t.children|
    ensures forall k :: k in t.props ==> r.props[k] == Text(AsText(t.props[k]))
    ensures forall i :: 0 <= i < |t.children| ==> r.children[i] == XmlForm(t.children[i])
    decreases t
  {
    Tree(t.typ, map k | k in t.props :: Text(AsText(t.props[k])),
      seq(|t.children|, i requires 0 <= i < |t.children| => XmlForm(t.children[i])))
  }

  /** Every value read back from its printed text as the kind it was written as is that value. */
  lemma TextConversions(s: string, x: real, b: bool)
    ensures AsText(Text(AsText(Text(s)))) == s
    ensures HasPlaces(x) ==> AsReal(Text(AsText(Number(x)))) == x
    ensures AsBool(Text(AsText(Flag(b)))) == b
  {
    if HasPlaces(x) {
      NumberTextRoundTrip(x);
    }
    FlagText(b);
  }

  lemma FlagText(b: bool)
    ensures AsBool(Text(if b then "1" else "0")) == b
  {
    var n := if b then 1 else 0;
    assert Decimal(n) == (if b then "1" else "0");
    IntValueOfDecimal(n);
    assert |Trim(Decimal(n))| <= 1;
  }

  /** `getProperty(key, default)`. */
  function Prop(t: Tree, key: string, default: Value): Value {
    if key in t.props then t.props[key] else default
  }

  /** `getChildWithName(type)`: the first child of that type, if any. */
  function ChildWithName(children: seq<Tree>, typ: string): (r: Option<Tree>)
    ensures r.Some? ==> r.value in children && r.value.typ == typ
    ensures r.None? ==> forall c :: c in children ==> c.typ != typ
  {
    if children == [] then None
    else if children[0].typ == typ then Some(children[0])
    else ChildWithName(children[1..], typ)
  }

  /** The `Track` node written for one track. */
  function TrackTree(t: TrackState): Tree {
    Tree(TrackType,
      map["name" := Text(t.name), "gain" := Number(t.gain), "muted" := Flag(t.muted), "solo" := Flag(t.solo)],
      [])
  }

  /** The tree `createProjectXML` builds for a project name and its tracks in index order. */
  function ProjectTree(name: string, ts: seq<TrackState>): (t: Tree)
    ensures t.typ == RootType
    ensures t.props == map["version" := Text("1.0"), "name" := Text(name)]
    ensures |t.children| == 1 && t.children[0].typ == TracksType
    ensures |t.children[0].children| == |ts|
    ensures forall i :: 0 <= i < |ts| ==> t.children[0].children[i] == TrackTree(ts[i])
  {
    Tree(RootType, map["version" := Text("1.0"), "name" := Text(name)],
      [Tree(TracksType, map[], seq(|ts|, i requires 0 <= i < |ts| => TrackTree(ts[i])))])
  }

  /** One `Track` node read back: missing fields default, and the gain goes through `setGain`. */
  function ReadTrack(t: Tree): (track: TrackState)
    ensures MinGain <= track.gain <= MaxGain
    ensures "name" !in t.props ==> track.name == DefaultTrackName
    ensures "gain" !in t.props ==> track.gain == 1.0
    ensures "muted" !in t.props ==> !track.muted
    ensures "solo" !in t.props ==> !track.solo
  {
    TrackState(
      AsText(Prop(t, "name", Text(DefaultTrackName))),
      Limit(MinGain, MaxGain, AsReal(Prop(t, "gain", Number(1.0)))),
      AsBool(Prop(t, "muted", Flag(false))),
      AsBool(Prop(t, "solo", Flag(false))))
  }

  /** The tracks a list of children yields: each `Track` child in order, others skipped. */
  function TracksFrom(children: seq<Tree>): (ts: seq<TrackState>)
    ensures |ts| <= |children|
  {
    if children == [] then []
    else
      var last := children[|children| - 1];
      TracksFrom(children[..|children| - 1]) + (if last.typ == TrackType then [ReadTrack(last)] else [])
  }

  /** The project name `parseProjectXML` reads. */
  function ParsedName(xml: Tree): string {
    AsText(Prop(xml, "name", Text(DefaultProjectName)))
  }

  /** The track list `parseProjectXML` rebuilds: none without a `Tracks` child. */
  function ParsedTracks(xml: Tree): seq<TrackState> {
    match ChildWithName(xml.children, TracksType)
    case None => []
    case Some(tracksXML) => TracksFrom(tracksXML.children)
  }

  /** What the project file records of a live track. */
  function State(t: Track): TrackState
    reads t
  {
    TrackState(t.name, t.gain, t.muted, t.solo)
  }

  /** The recorded state of the engine's tracks, in index order. */
  function Snapshot(ts: seq<Track>): (r: seq<TrackState>)
    reads set t | t in ts
    ensures |r| == |ts|
    ensures forall i :: 0 <= i < |ts| ==> r[i] == State(ts[i])
  {
    seq(|ts|, i requires 0 <= i < |ts| reads set t | t in ts => State(ts[i]))
  }

  /** Tracks whose states are the recorded ones followed by one more have that snapshot. */
  lemma SnapshotExtends(after: seq<Track>, recorded: seq<TrackState>, last: TrackState)
    requires |after| == |recorded| + 1 && State(after[|recorded|]) == last
    requires forall i :: 0 <= i < |recorded| ==> State(after[i]) == recorded[i]
    ensures Snapshot(after) == recorded + [last]
  {
  }

  predicate GainsInRange(ts: seq<TrackState>) {
    forall i :: 0 <= i < |ts| ==> MinGain <= ts[i].gain <= MaxGain
  }

  /** One more child read: a `Track` child adds its track, any other adds nothing. */
  lemma TracksFromStep(children: seq<Tree>, i: nat)
    requires i < |children|
    ensures TracksFrom(children[..i + 1])
         == TracksFrom(children[..i]) + (if children[i].typ == TrackType then [ReadTrack(children[i])] else [])
  {
    assert children[..i + 1][..i] == children[..i];
  }

  /** Each node is a `Track` node that reads as the track at the same index. */
  predicate ReadsAs(nodes: seq<Tree>, ts: seq<TrackState>) {
    |nodes| == |ts| && forall i :: 0 <= i < |ts| ==> nodes[i].typ == TrackType && ReadTrack(nodes[i]) == ts[i]
  }

  /** Children that are all `Track` nodes read back as exactly their tracks, in order. */
  lemma {:induction false} TracksFromReadsAs(nodes: seq<Tree>, ts: seq<TrackState>)
    requires ReadsAs(nodes, ts)
    ensures TracksFrom(nodes) == ts
  {
    if ts != [] {
      var n := |ts| - 1;
      assert ReadsAs(nodes[..n], ts[..n]);
      TracksFromReadsAs(nodes[..n], ts[..n]);
      TracksFromStep(nodes, n);
      assert nodes[..n + 1] == nodes;
      PrefixAndLast(ts);
    }
  }

  /** The node written for an in-range track reads back as that track. */
  lemma TrackTreeRead(t: TrackState)
    requires MinGain <= t.gain <= MaxGain
    ensures ReadTrack(TrackTree(t)) == t
  {
  }

  /** Reading back the nodes written for in-range tracks gives the tracks. */
  lemma TracksFromTrackTrees(ts: seq<TrackState>)
    requires GainsInRange(ts)
    ensures TracksFrom(seq(|ts|, i requires 0 <= i < |ts| => TrackTree(ts[i]))) == ts
  {
    var nodes := seq(|ts|, i requires 0 <= i < |ts| => TrackTree(ts[i]));
    forall i | 0 <= i < |ts|
      ensures ReadTrack(nodes[i]) == ts[i]
    {
      TrackTreeRead(ts[i]);
    }
    TracksFromReadsAs(nodes, ts);
  }

  /**
   * Save then load: parsing the tree built for a project gives back its name
   * and its tracks, provided the gains are already in [0, 2] (as `setGain`
   * keeps them).
   */
  lemma SaveLoadRoundTrip(name: string, ts: seq<TrackState>)
    requires GainsInRange(ts)
    ensures ProjectTree(name, ts).typ == RootType
    ensures ParsedName(ProjectTree(name, ts)) == name
    ensures ParsedTracks(ProjectTree(name, ts)) == ts
  {
    TracksFromTrackTrees(ts);
  }

  /** Every gain has at most `Places` decimals, so that its printed text reads back exactly. */
  predicate GainsPrintable(ts: seq<TrackState>) {
    forall i :: 0 <= i < |ts| ==> HasPlaces(ts[i].gain)
  }

  /** A `Track` node written as XML and read back gives the track, when its gain is in range and prints exactly. */
  lemma XmlTrackRoundTrip(t: TrackState)
    requires MinGain <= t.gain <= MaxGain && HasPlaces(t.gain)
    ensures ReadTrack(XmlForm(TrackTree(t))) == t
  {
    var x := XmlForm(TrackTree(t));
    XmlNameRead(t);
    XmlGainRead(t);
    XmlFlagsRead(t);
    assert ReadTrack(x) == TrackState(t.name, t.gain, t.muted, t.solo);
  }

  lemma XmlNameRead(t: TrackState)
    ensures AsText(Prop(XmlForm(TrackTree(t)), "name", Text(DefaultTrackName))) == t.name
  {
    XmlProp(TrackTree(t), "name", Text(DefaultTrackName));
    TextConversions(t.name, 0.0, false);
  }

  lemma XmlGainRead(t: TrackState)
    requires MinGain <= t.gain <= MaxGain && HasPlaces(t.gain)
    ensures Limit(MinGain, MaxGain, AsReal(Prop(XmlForm(TrackTree(t)), "gain", Number(1.0)))) == t.gain
  {
    XmlProp(TrackTree(t), "gain", Number(1.0));
    NumberTextRoundTrip(t.gain);
  }

  lemma XmlFlagsRead(t: TrackState)
    ensures AsBool(Prop(XmlForm(TrackTree(t)), "muted", Flag(false))) == t.muted
    ensures AsBool(Prop(XmlForm(TrackTree(t)), "solo", Flag(false))) == t.solo
  {
    XmlProp(TrackTree(t), "muted", Flag(false));
    XmlProp(TrackTree(t), "solo", Flag(false));
    FlagText(t.muted);
    FlagText(t.solo);
  }

  /** A property present before writing reads back as the text it was printed as. */
  lemma XmlProp(t: Tree, key: string, default: Value)
    requires key in t.props
    ensures Prop(XmlForm(t), key, default) == Text(AsText(t.props[key]))
  {
  }

  /** Reading back the XML form of the nodes written for in-range, exactly printable tracks gives the tracks. */
  lemma TracksFromXmlTrackTrees(ts: seq<TrackState>)
    requires GainsInRange(ts) && GainsPrintable(ts)
    ensures TracksFrom(seq(|ts|, i requires 0 <= i < |ts| => XmlForm(TrackTree(ts[i])))) == ts
  {
    var nodes := seq(|ts|, i requires 0 <= i < |ts| => XmlForm(TrackTree(ts[i])));
    forall i | 0 <= i < |ts|
      ensures nodes[i].typ == TrackType && ReadTrack(nodes[i]) == ts[i]
    {
      XmlTrackRoundTrip(ts[i]);
    }
    TracksFromReadsAs(nodes, ts);
  }

  /**
   * Save to a file then load it: the tree `fromXml` rebuilds from the text
   * written for a project parses back to its name and its tracks, provided
   * the gains are in [0, 2] and print exactly.
   */
  lemma FileRoundTrip(name: string, ts: seq<TrackState>)
    requires GainsInRange(ts) && GainsPrintable(ts)
    ensures XmlForm(ProjectTree(name, ts)).typ == RootType
    ensures ParsedName(XmlForm(ProjectTree(name, ts))) == name
    ensures ParsedTracks(XmlForm(ProjectTree(name, ts))) == ts
  {
    var p := ProjectTree(name, ts);
    var x := XmlForm(p);
    assert x.props["name"] == Text(AsText(Text(name)));
    var tracks := x.children[0];
    assert tracks == XmlForm(p.children[0]);
    assert ChildWithName(x.children, TracksType) == Some(tracks);
    assert tracks.children == seq(|ts|, i requires 0 <= i < |ts| => XmlForm(TrackTree(ts[i])));
    TracksFromXmlTrackTrees(ts);
  }

  /** Whatever the tree holds, every gain read back is in [0, 2]. */
  lemma {:induction false} ParsedGainsInRange(children: seq<Tree>)
    ensures GainsInRange(TracksFrom(children))
  {
    if children != [] {
      ParsedGainsInRange(children[..|children| - 1]);
    }
  }

  /** A project or track node lacking a field reads back with that field's default. */
  lemma ParseDefaults(t: Tree)
    ensures "name" !in t.props ==> ParsedName(t) == DefaultProjectName && ReadTrack(t).name == DefaultTrackName
    ensures "gain" !in t.props ==> ReadTrack(t).gain == 1.0
    ensures "muted" !in t.props ==> !ReadTrack(t).muted
    ensures "solo" !in t.props ==> !ReadTrack(t).solo
  {
  }

  /** The tracks read back are the `Track` children read one by one, in order; other children are skipped. */
  lemma {:induction false} TracksFromTrackChildren(children: seq<Tree>)
    ensures var nodes := Filter(children, (c: Tree) => c.typ == TrackType);
      |TracksFrom(children)| == |nodes|
      && forall i :: 0 <= i < |nodes| ==> TracksFrom(children)[i] == ReadTrack(nodes[i])
    decreases |children|
  {
    if children != [] {
      TracksFromTrackChildren(children[..|children| - 1]);
    }
  }

  class ProjectManager {
    const audioEngine: MultiTrackMixer
    var currentProjectFile: string
    var projectName: string
    var unsavedChanges: bool

    ghost predicate Valid()
      reads this, audioEngine, audioEngine.tracks
    {
      audioEngine.Valid()
    }

    constructor (engine: MultiTrackMixer)
      ensures audioEngine == engine
      ensures currentProjectFile == "" && projectName == DefaultProjectName && !unsavedChanges
    {
      audioEngine := engine;
      currentProjectFile := "";
      projectName := DefaultProjectName;
      unsavedChanges := false;
    }

    /** The two `while (getNumTracks() > 0) removeTrack(0)` loops. */
    method RemoveAllTracks()
      requires Valid()
      modifies audioEngine`tracks
      ensures Valid() && audioEngine.tracks == []
    {
      while audioEngine.GetNumTracks() > 0
        invariant Valid()
        decreases |audioEngine.tracks|
      {
        audioEngine.RemoveTrack(0);
      }
    }

    /** `createProjectXML`: one `Track` node per engine track, in index order. */
    method CreateProjectXML() returns (project: Tree)
      requires Valid()
      ensures project == ProjectTree(projectName, Snapshot(audioEngine.tracks))
    {
      var nodes: seq<Tree> := [];
      var ts := Snapshot(audioEngine.tracks);
      for i := 0 to audioEngine.GetNumTracks()
        invariant nodes == seq(i, k requires 0 <= k < i => TrackTree(ts[k]))
      {
        var track := audioEngine.GetTrack(i);
        if track != null {
          nodes := nodes + [TrackTree(TrackState(track.name, track.gain, track.muted, track.solo))];
        }
      }
      project := Tree(RootType, map["version" := Text("1.0"), "name" := Text(projectName)],
        [Tree(TracksType, map[], nodes)]);
    }

    /**
     * `parseProjectXML`: a root of another type is rejected with nothing
     * changed; otherwise every engine track is removed, the name is read, and
     * a track is added for each `Track` child of the first `Tracks` child.
     */
    method ParseProjectXML(xml: Tree) returns (ok: bool)
      requires Valid()
      modifies this`projectName, audioEngine`tracks
      ensures Valid()
      ensures ok == (xml.typ == RootType)
      ensures !ok ==> audioEngine.tracks == old(audioEngine.tracks) && projectName == old(projectName)
      ensures ok ==> projectName == ParsedName(xml) && Snapshot(audioEngine.tracks) == ParsedTracks(xml)
    {
      if xml.typ != RootType {
        return false;
      }
      RemoveAllTracks();
      projectName := AsText(Prop(xml, "name", Text(DefaultProjectName)));
      var tracksXML := ChildWithName(xml.children, TracksType);
      assert Snapshot(audioEngine.tracks) == [];
      if tracksXML.Some? {
        AddTracksFrom(tracksXML.value.children);
      }
      return true;
    }

    /** The loop over the `Tracks` children, starting from an empty engine. */
    method AddTracksFrom(children: seq<Tree>)
      requires Valid() && audioEngine.tracks == []
      modifies audioEngine`tracks
      ensures Valid()
      ensures Snapshot(audioEngine.tracks) == TracksFrom(children)
    {
      for i := 0 to |children|
        invariant Valid()
        invariant Snapshot(audioEngine.tracks) == TracksFrom(children[..i])
      {
        TracksFromStep(children, i);
        ReadChild(children[i]);
      }
      assert children[..|children|] == children;
    }

    /** One pass of the parse loop: only a `Track` child adds a track. */
    method ReadChild(trackXML: Tree)
      requires Valid()
      modifies audioEngine`tracks
      ensures Valid()
      ensures Snapshot(audioEngine.tracks)
           == Snapshot(old(audioEngine.tracks)) + (if trackXML.typ == TrackType then [ReadTrack(trackXML)] else [])
    {
      if trackXML.typ == TrackType {
        AddTrackFrom(trackXML);
      } else {
        assert Snapshot(audioEngine.tracks) + [] == Snapshot(audioEngine.tracks);
      }
    }

    /** The body of the parse loop for one `Track` child: add the track, then set its controls. */
    method AddTrackFrom(trackXML: Tree)
      requires Valid()
      modifies audioEngine`tracks
      ensures Valid()
      ensures Snapshot(audioEngine.tracks) == Snapshot(old(audioEngine.tracks)) + [ReadTrack(trackXML)]
    {
      ghost var before := audioEngine.tracks;
      ghost var recorded := Snapshot(before);
      var trackName := AsText(Prop(trackXML, "name", Text(DefaultTrackName)));
      var gain := AsReal(Prop(trackXML, "gain", Number(1.0)));
      var muted := AsBool(Prop(trackXML, "muted", Flag(false)));
      var solo := AsBool(Prop(trackXML, "solo", Flag(false)));
      ghost var read := ReadTrack(trackXML);
      assert read == TrackState(trackName, Limit(MinGain, MaxGain, gain), muted, solo);
      var trackIndex, _ := audioEngine.AddTrack(trackName);
      var track := audioEngine.GetTrack(trackIndex);
      ghost var after := audioEngine.tracks;
      assert after == before + [track] && track !in before;
      if track != null {
        track.SetGain(gain);
        track.SetMuted(muted);
        track.SetSolo(solo);
      }
      assert State(track) == read;
      assert audioEngine.Valid() by {
        forall t | t in after ensures t.Valid() {
          if t != track {
            assert t in before;
          }
        }
      }
      forall i | 0 <= i < |before|
        ensures State(after[i]) == recorded[i]
      {
        assert after[i] == before[i] != track;
      }
      SnapshotExtends(after, recorded, read);
    }

    /**
     * `saveProject(file)`: the project tree is built and written; `written`
     * says whether `replaceWithText` succeeded. Only a successful write
     * records the file and clears the unsaved flag.
     */
    method SaveProject(file: string, written: bool) returns (ok: bool, saved: Tree)
      requires Valid()
      modifies this`currentProjectFile, this`unsavedChanges
      ensures saved == ProjectTree(projectName, Snapshot(audioEngine.tracks))
      ensures ok == written
      ensures ok ==> currentProjectFile == file && !unsavedChanges
      ensures !ok ==> currentProjectFile == old(currentProjectFile) && unsavedChanges == old(unsavedChanges)
    {
      saved := CreateProjectXML();
      if written {
        currentProjectFile := file;
        unsavedChanges := false;
        return true, saved;
      }
      return false, saved;
    }

    /**
     * `loadProject(file)`: `fileExists` says whether the file is there and
     * `xml` is the tree its text parses to (`None` when `fromXml` gives an
     * invalid tree). Success requires a tree of the project type; only then
     * are the file recorded and the unsaved flag cleared.
     */
    method LoadProject(file: string, fileExists: bool, xml: Option<Tree>) returns (ok: bool)
      requires Valid()
      modifies this`currentProjectFile, this`unsavedChanges, this`projectName, audioEngine`tracks
      ensures Valid()
      ensures ok == (fileExists && xml.Some? && xml.value.typ == RootType)
      ensures ok ==> currentProjectFile == file && !unsavedChanges
      ensures ok ==> projectName == ParsedName(xml.value) && Snapshot(audioEngine.tracks) == ParsedTracks(xml.value)
      ensures !ok ==> currentProjectFile == old(currentProjectFile) && unsavedChanges == old(unsavedChanges)
      ensures !ok ==> projectName == old(projectName) && audioEngine.tracks == old(audioEngine.tracks)
    {
      if !fileExists {
        return false;
      }
      if xml.Some? {
        var parsed := ParseProjectXML(xml.value);
        if parsed {
          currentProjectFile := file;
          unsavedChanges := false;
          return true;
        }
      }
      return false;
    }

    /** `newProject`: no tracks, no file, the default name and nothing unsaved. */
    method NewProject() returns (ok: bool)
      requires Valid()
      modifies this`currentProjectFile, this`unsavedChanges, this`projectName, audioEngine`tracks
      ensures Valid() && ok
      ensures audioEngine.tracks == [] && currentProjectFile == ""
      ensures projectName == DefaultProjectName && !unsavedChanges
    {
      RemoveAllTracks();
      currentProjectFile := "";
      projectName := DefaultProjectName;
      unsavedChanges := false;
      return true;
    }
  }
}
