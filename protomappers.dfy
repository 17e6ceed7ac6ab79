/**
 * The plain-data mappers of package protomappers: the three working-directory
 * pairs and the label-set pair.  Each is total: one input, one result, no
 * error.  A nil input is not modelled: every message and handle is a value.
 */
module ProtoMappers {
  import Pb
  import Datadir
  import Component

  // ---------------------------------------------------------------------------
  // Working directories

  /** Builds the native project directory from the wire message's two paths. */
  function DatadirProject(input: Pb.ArgsDataDirProject): (p: Datadir.Project)
    ensures p.CacheDir() == input.cacheDir && p.DataDir() == input.dataDir
  {
    Datadir.Project(Datadir.NewBasicDir(input.cacheDir, input.dataDir))
  }

  /** Carries the native project directory's accessors, each into its own field. */
  function DatadirProjectProto(input: Datadir.Project): (m: Pb.ArgsDataDirProject)
    ensures m.cacheDir == input.CacheDir() && m.dataDir == input.DataDir()
  {
    Pb.ArgsDataDirProject(input.CacheDir(), input.DataDir())
  }

  /** Builds the native app directory from the wire message's two paths. */
  function DatadirApp(input: Pb.ArgsDataDirApp): (a: Datadir.App)
    ensures a.CacheDir() == input.cacheDir && a.DataDir() == input.dataDir
  {
    Datadir.App(Datadir.NewBasicDir(input.cacheDir, input.dataDir))
  }

  /** Carries the native app directory's accessors, each into its own field. */
  function DatadirAppProto(input: Datadir.App): (m: Pb.ArgsDataDirApp)
    ensures m.cacheDir == input.CacheDir() && m.dataDir == input.DataDir()
  {
    Pb.ArgsDataDirApp(input.CacheDir(), input.DataDir())
  }

  /** Builds the native component directory from the wire message's two paths. */
  function DatadirComponent(input: Pb.ArgsDataDirComponent): (c: Datadir.Component)
    ensures c.CacheDir() == input.cacheDir && c.DataDir() == input.dataDir
  {
    Datadir.Component(Datadir.NewBasicDir(input.cacheDir, input.dataDir))
  }

  /** Carries the native component directory's accessors, each into its own field. */
  function DatadirComponentProto(input: Datadir.Component): (m: Pb.ArgsDataDirComponent)
    ensures m.cacheDir == input.CacheDir() && m.dataDir == input.DataDir()
  {
    Pb.ArgsDataDirComponent(input.CacheDir(), input.DataDir())
  }

  /** Wire to native to wire gives back the same message: neither path is lost and the two are never swapped. */
  lemma DatadirProjectWireRoundTrip(m: Pb.ArgsDataDirProject)
    ensures DatadirProjectProto(DatadirProject(m)) == m
  {
  }

  /** Native to wire to native gives back a directory reporting the same two paths. */
  lemma DatadirProjectNativeRoundTrip(p: Datadir.Project)
    ensures DatadirProject(DatadirProjectProto(p)).CacheDir() == p.CacheDir()
    ensures DatadirProject(DatadirProjectProto(p)).DataDir() == p.DataDir()
  {
  }

  /** A cache path "/c" and a data path "/d" survive the trip through the native handle and back. */
  lemma DatadirProjectExample()
    ensures DatadirProject(Pb.ArgsDataDirProject("/c", "/d")).CacheDir() == "/c"
    ensures DatadirProject(Pb.ArgsDataDirProject("/c", "/d")).DataDir() == "/d"
    ensures DatadirProjectProto(DatadirProject(Pb.ArgsDataDirProject("/c", "/d"))) == Pb.ArgsDataDirProject("/c", "/d")
  {
  }

  lemma DatadirAppWireRoundTrip(m: Pb.ArgsDataDirApp)
    ensures DatadirAppProto(DatadirApp(m)) == m
  {
  }

  lemma DatadirAppNativeRoundTrip(a: Datadir.App)
    ensures DatadirApp(DatadirAppProto(a)).CacheDir() == a.CacheDir()
    ensures DatadirApp(DatadirAppProto(a)).DataDir() == a.DataDir()
  {
  }

  lemma DatadirComponentWireRoundTrip(m: Pb.ArgsDataDirComponent)
    ensures DatadirComponentProto(DatadirComponent(m)) == m
  {
  }

  lemma DatadirComponentNativeRoundTrip(c: Datadir.Component)
    ensures DatadirComponent(DatadirComponentProto(c)).CacheDir() == c.CacheDir()
    ensures DatadirComponent(DatadirComponentProto(c)).DataDir() == c.DataDir()
  {
  }

  // ---------------------------------------------------------------------------
  // Label sets

  /** The native label set holds exactly the wire message's labels. */
  function LabelSet(input: Pb.ArgsLabelSet): (l: Component.LabelSet)
    ensures l.labels.Keys == input.labels.Keys
    ensures forall k :: k in l.labels ==> l.labels[k] == input.labels[k]
  {
    Component.LabelSet(input.labels)
  }

  /** The wire message holds exactly the native label set's labels. */
  function LabelSetProto(labels: Component.LabelSet): (m: Pb.ArgsLabelSet)
    ensures m.labels.Keys == labels.labels.Keys
    ensures forall k :: k in m.labels ==> m.labels[k] == labels.labels[k]
  {
    Pb.ArgsLabelSet(labels.labels)
  }

  /** Wire to native to wire: no label is added, dropped or rewritten. */
  lemma LabelSetWireRoundTrip(m: Pb.ArgsLabelSet)
    ensures LabelSetProto(LabelSet(m)) == m
  {
  }

  /** Native to wire to native: no label is added, dropped or rewritten. */
  lemma LabelSetNativeRoundTrip(l: Component.LabelSet)
    ensures LabelSet(LabelSetProto(l)) == l
  {
  }

  /** The message {"env": "prod"} becomes a label set with exactly one entry, env -> prod. */
  lemma LabelSetExample()
    ensures LabelSet(Pb.ArgsLabelSet(map["env" := "prod"])).labels.Keys == {"env"}
    ensures |LabelSet(Pb.ArgsLabelSet(map["env" := "prod"])).labels| == 1
    ensures LabelSet(Pb.ArgsLabelSet(map["env" := "prod"])).labels["env"] == "prod"
  {
  }
}
