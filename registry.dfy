/**
 * The mapper table `All` of package protomappers, read as a registry: each
 * entry records the name of a conversion function, the types its Go
 * signature takes (in order), the type it produces and whether it also
 * returns an `error`.
 */
module MapperRegistry {
  import opened Wrappers

  /**
   * One tag per Go type that appears in a mapper signature.  The `Args*`
   * tags are the wire messages of package pb; the next group are the native
   * types the plugin code consumes; `Ctx` (context.Context), `Log`
   * (hclog.Logger) and `Internal` (*pluginargs.Internal) are the values every
   * call supplies without transporting them.  hclog.Logger is a single Go
   * type, so `Log` is also the native side of the Logger/LoggerProto pair.
   */
  datatype TypeTag =
    | ArgsSource | ArgsJobInfo | ArgsDeploymentConfig
    | ArgsDataDirProject | ArgsDataDirApp | ArgsDataDirComponent
    | ArgsLogger | ArgsTerminalUI | ArgsLabelSet
    | Source | JobInfo | DeploymentConfig
    | DatadirProject | DatadirApp | DatadirComponent
    | TerminalUI | LabelSet
    | Ctx | Log | Internal
  {
    /** A message type of package pb. */
    predicate IsWire() {
      ArgsSource? || ArgsJobInfo? || ArgsDeploymentConfig? || ArgsDataDirProject? || ArgsDataDirApp?
      || ArgsDataDirComponent? || ArgsLogger? || ArgsTerminalUI? || ArgsLabelSet?
    }

    /** Supplied by every call rather than carried on the wire. */
    predicate IsAmbient() {
      Ctx? || Log? || Internal?
    }

    /** A handle on the call itself, never the value being converted. */
    predicate IsCallHandle() {
      Ctx? || Internal?
    }
  }

  /** One conversion function: its Go name, parameter types, result type, and whether it returns an error too. */
  datatype Entry = Entry(name: string, inputs: seq<TypeTag>, output: TypeTag, fallible: bool)

  /** The table `All`, in source order, with each entry read off its function's signature. */
  const All: seq<Entry> := [
    Entry("Source", [ArgsSource], Source, true),
    Entry("SourceProto", [Source], ArgsSource, true),
    Entry("JobInfo", [ArgsJobInfo], JobInfo, true),
    Entry("JobInfoProto", [JobInfo], ArgsJobInfo, true),
    Entry("DeploymentConfig", [ArgsDeploymentConfig], DeploymentConfig, true),
    Entry("DeploymentConfigProto", [DeploymentConfig], ArgsDeploymentConfig, true),
    Entry("DatadirProject", [ArgsDataDirProject], DatadirProject, false),
    Entry("DatadirApp", [ArgsDataDirApp], DatadirApp, false),
    Entry("DatadirComponent", [ArgsDataDirComponent], DatadirComponent, false),
    Entry("DatadirProjectProto", [DatadirProject], ArgsDataDirProject, false),
    Entry("DatadirAppProto", [DatadirApp], ArgsDataDirApp, false),
    Entry("DatadirComponentProto", [DatadirComponent], ArgsDataDirComponent, false),
    Entry("Logger", [ArgsLogger], Log, false),
    Entry("LoggerProto", [Log], ArgsLogger, false),
    Entry("TerminalUI", [Ctx, ArgsTerminalUI, Log, Internal], TerminalUI, true),
    Entry("TerminalUIProto", [TerminalUI, Log, Internal], ArgsTerminalUI, false),
    Entry("LabelSet", [ArgsLabelSet], LabelSet, false),
    Entry("LabelSetProto", [LabelSet], ArgsLabelSet, false)
  ]

  /** The position, at or after `k`, of the first parameter that is not a call handle. */
  function SubjectFrom(inputs: seq<TypeTag>, k: nat): (r: Option<nat>)
    requires k <= |inputs|
    ensures r.Some? ==>
      k <= r.value < |inputs| && !inputs[r.value].IsCallHandle()
      && forall m :: k <= m < r.value ==> inputs[m].IsCallHandle()
    ensures r.None? ==> forall m :: k <= m < |inputs| ==> inputs[m].IsCallHandle()
    decreases |inputs| - k
  {
    if k == |inputs| then None
    else if inputs[k].IsCallHandle() then SubjectFrom(inputs, k + 1)
    else Some(k)
  }

  /** The value a mapper converts: its first parameter that is not a call handle. */
  function Subject(inputs: seq<TypeTag>): Option<TypeTag> {
    match SubjectFrom(inputs, 0)
    case Some(k) => Some(inputs[k])
    case None => None
  }

  // ---------------------------------------------------------------------------
  // Checks over the table

  /** The position in `All` of the entry producing `t`, read off the table by hand. */
  function Producer(t: TypeTag): Option<nat> {
    match t
    case Source => Some(0)
    case ArgsSource => Some(1)
    case JobInfo => Some(2)
    case ArgsJobInfo => Some(3)
    case DeploymentConfig => Some(4)
    case ArgsDeploymentConfig => Some(5)
    case DatadirProject => Some(6)
    case DatadirApp => Some(7)
    case DatadirComponent => Some(8)
    case ArgsDataDirProject => Some(9)
    case ArgsDataDirApp => Some(10)
    case ArgsDataDirComponent => Some(11)
    case Log => Some(12)
    case ArgsLogger => Some(13)
    case TerminalUI => Some(14)
    case ArgsTerminalUI => Some(15)
    case LabelSet => Some(16)
    case ArgsLabelSet => Some(17)
    case Ctx => None
    case Internal => None
  }

  lemma ProducerIsPosition()
    ensures |All| == 18
    ensures forall i :: 0 <= i < |All| ==> Producer(All[i].output) == Some(i)
  {
    forall i | 0 <= i < |All| ensures Producer(All[i].output) == Some(i) {
      assert i == 0 || i == 1 || i == 2 || i == 3 || i == 4 || i == 5 || i == 6 || i == 7 || i == 8
        || i == 9 || i == 10 || i == 11 || i == 12 || i == 13 || i == 14 || i == 15 || i == 16 || i == 17;
    }
  }

  /** Splits a position of `All` into its eighteen concrete cases. */
  lemma Positions(i: int)
    requires 0 <= i < |All|
    ensures i == 0 || i == 1 || i == 2 || i == 3 || i == 4 || i == 5 || i == 6 || i == 7 || i == 8
      || i == 9 || i == 10 || i == 11 || i == 12 || i == 13 || i == 14 || i == 15 || i == 16 || i == 17
  {
  }

  /** No two mappers produce the same type, so a required type never has two candidate conversions. */
  predicate OutputsDistinct(es: seq<Entry>) {
    forall i, j :: 0 <= i < |es| && 0 <= j < |es| && i != j ==> es[i].output != es[j].output
  }

  lemma AllOutputsDistinct()
    ensures |All| == 18
    ensures OutputsDistinct(All)
  {
    ProducerIsPosition();
  }

  /** The Go function names in the table are pairwise different. */
  lemma AllNamesDistinct()
    ensures forall i, j :: 0 <= i < |All| && 0 <= j < |All| && i != j ==> All[i].name != All[j].name
  {
    forall i, j | 0 <= i < |All| && 0 <= j < |All| && i != j ensures All[i].name != All[j].name {
      Positions(i);
      Positions(j);
    }
  }

  /** The parameter each entry of `All` converts, in table order. */
  const Subjects: seq<TypeTag> := [
    ArgsSource, Source, ArgsJobInfo, JobInfo, ArgsDeploymentConfig, DeploymentConfig,
    ArgsDataDirProject, ArgsDataDirApp, ArgsDataDirComponent, DatadirProject, DatadirApp, DatadirComponent,
    ArgsLogger, Log, ArgsTerminalUI, TerminalUI, ArgsLabelSet, LabelSet
  ]

  lemma SubjectsOfAll()
    ensures |Subjects| == |All|
    ensures forall i :: 0 <= i < |All| ==> Subject(All[i].inputs) == Some(Subjects[i])
  {
    forall i | 0 <= i < |All| ensures Subject(All[i].inputs) == Some(Subjects[i]) {
      Positions(i);
    }
  }

  /** Every mapper converts one wire message into a native value or one native value into a wire message. */
  lemma EveryEntryCrossesTheBoundary()
    ensures forall i :: 0 <= i < |All| ==>
      Subject(All[i].inputs).Some? && Subject(All[i].inputs).value.IsWire() != All[i].output.IsWire()
  {
    forall i | 0 <= i < |All| ensures Subjects[i].IsWire() != All[i].output.IsWire() {
      Positions(i);
    }
    SubjectsOfAll();
  }

  /** Entry `j` undoes entry `i`: it converts what `i` produces back into what `i` converts. */
  predicate InverseEntries(es: seq<Entry>, i: nat, j: nat)
    requires i < |es| && j < |es|
  {
    Subject(es[j].inputs) == Some(es[i].output) && Some(es[j].output) == Subject(es[i].inputs)
  }

  /** For each entry of `All`, the position of the entry that undoes it. */
  const Partner: seq<nat> := [1, 0, 3, 2, 5, 4, 9, 10, 11, 6, 7, 8, 13, 12, 15, 14, 17, 16]

  lemma PartnersUndo()
    ensures |Partner| == |All|
    ensures forall i :: 0 <= i < |All| ==>
      Partner[i] < |All| && Partner[i] != i && Partner[Partner[i]] == i
      && Subjects[Partner[i]] == All[i].output && All[Partner[i]].output == Subjects[i]
  {
    forall i | 0 <= i < |All|
      ensures Partner[i] < |All| && Partner[i] != i && Partner[Partner[i]] == i
      ensures Subjects[Partner[i]] == All[i].output && All[Partner[i]].output == Subjects[i]
    {
      Positions(i);
    }
  }

  /** Some other entry of the table undoes entry `i`. */
  predicate HasInverse(es: seq<Entry>, i: nat)
    requires i < |es|
  {
    exists j :: 0 <= j < |es| && j != i && InverseEntries(es, i, j)
  }

  /** Every mapper has an inverse in the table: if one entry takes W to N, another takes N back to W. */
  lemma EveryEntryHasInverse()
    ensures forall i :: 0 <= i < |All| ==> HasInverse(All, i)
  {
    PartnersUndo();
    SubjectsOfAll();
    forall i | 0 <= i < |All| ensures HasInverse(All, i) {
      var j := Partner[i];
      assert InverseEntries(All, i, j);
    }
  }

  /**
   * Only TerminalUI takes a context; only TerminalUI and TerminalUIProto take the
   * internal handle and have more than one parameter; the logger is taken by those
   * two and by LoggerProto, whose one parameter is the logger itself.
   */
  lemma AmbientInputs()
    ensures forall i :: 0 <= i < |All| ==> (Ctx in All[i].inputs <==> All[i].name == "TerminalUI")
    ensures forall i :: 0 <= i < |All| ==>
      (Internal in All[i].inputs <==> All[i].name == "TerminalUI" || All[i].name == "TerminalUIProto")
    ensures forall i :: 0 <= i < |All| ==> (Log in All[i].inputs <==>
      All[i].name == "TerminalUI" || All[i].name == "TerminalUIProto" || All[i].name == "LoggerProto")
    ensures forall i :: 0 <= i < |All| ==>
      (|All[i].inputs| == 1 <==> All[i].name != "TerminalUI" && All[i].name != "TerminalUIProto")
  {
    forall i | 0 <= i < |All|
      ensures Ctx in All[i].inputs <==> All[i].name == "TerminalUI"
      ensures Internal in All[i].inputs <==> All[i].name == "TerminalUI" || All[i].name == "TerminalUIProto"
      ensures Log in All[i].inputs <==>
        All[i].name == "TerminalUI" || All[i].name == "TerminalUIProto" || All[i].name == "LoggerProto"
      ensures |All[i].inputs| == 1 <==> All[i].name != "TerminalUI" && All[i].name != "TerminalUIProto"
    {
      Positions(i);
    }
  }

  /** The mappers that also return an error are exactly the mapstructure-based ones and TerminalUI. */
  predicate IsFallibleName(name: string) {
    name == "Source" || name == "SourceProto" || name == "JobInfo" || name == "JobInfoProto"
    || name == "DeploymentConfig" || name == "DeploymentConfigProto" || name == "TerminalUI"
  }

  lemma FallibleEntries()
    ensures forall i :: 0 <= i < |All| ==> (All[i].fallible <==> IsFallibleName(All[i].name))
  {
    forall i | 0 <= i < |All| ensures All[i].fallible <==> IsFallibleName(All[i].name) {
      Positions(i);
    }
  }
}
