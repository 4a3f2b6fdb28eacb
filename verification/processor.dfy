/**
 * `SenchaModelGen.process`: the per-round driver. It runs the model
 * generator over every `@Model` type and hands each descriptor to the writer;
 * a failure while handling one type is reported against that type and the
 * round goes on with the next.
 */
module Processor {
  import opened Wrappers
  import opened Annotations
  import opened Elements
  import MG = ModelGenerator

  /** The fully qualified name of the processor class, which opens every note. */
  const ProcessorName := "localhost.apt.SenchaModelGen"

  /** The outcome of `setup()`: the template compiled, or the loading failure's message. */
  datatype Setup = Ready | SetupFailed(message: string)

  /**
   * The outcome of `write(modelData)`, which renders the template into the
   * file: the path written, or the message of the exception it threw.
   */
  datatype WriteOutcome = Written(path: string) | WriteFailed(message: string)

  /** A message to the compiler's `Messager`, with the type it is reported against, if any. */
  datatype Diagnostic = Note(message: string) | Error(message: string, element: Option<TypeDecl>)

  /** A type found carrying `@Model`, with that annotation's values. */
  datatype AnnotatedType = AnnotatedType(meta: ModelMeta, decl: TypeDecl)

  /** What happened to one type in the round. */
  datatype TypeOutcome =
    | Skipped
    | Generated(model: MG.ModelData, path: string)
    | Failed(element: TypeDecl, message: string)

  /**
   * The body of the `try` block for one type, `now` being the moment its
   * descriptor is finished.
   */
  function ProcessType(t: AnnotatedType, write: MG.ModelData -> WriteOutcome, now: MG.Timestamp): (o: TypeOutcome)
    ensures o.Skipped? <==> !MG.IsGenerable(t.decl)
    ensures o.Failed? ==> o.element == t.decl
  {
    match MG.Generate(t.meta, t.decl, now)
    case None => Skipped
    case Some(model) =>
      match write(model)
      case Written(path) => Generated(model, path)
      case WriteFailed(message) => Failed(t.decl, message)
  }

  /**
   * A type is skipped exactly when the class gate rejects it; otherwise its
   * model goes to the writer, and the outcome is the path written or a
   * failure reported against that very type with the writer's message.
   */
  lemma ProcessTypeOutcome(t: AnnotatedType, write: MG.ModelData -> WriteOutcome, now: MG.Timestamp)
    ensures ProcessType(t, write, now).Skipped? <==> !MG.IsGenerable(t.decl)
    ensures ProcessType(t, write, now).Generated? ==>
              MG.Generate(t.meta, t.decl, now) == Some(ProcessType(t, write, now).model)
              && write(ProcessType(t, write, now).model) == Written(ProcessType(t, write, now).path)
    ensures ProcessType(t, write, now).Failed? ==>
              ProcessType(t, write, now).element == t.decl && MG.Generate(t.meta, t.decl, now).Some?
              && write(MG.Generate(t.meta, t.decl, now).value) == WriteFailed(ProcessType(t, write, now).message)
  {
  }

  /** The messages one type's outcome sends: a note naming the file, an error naming the type, or none. */
  function OutcomeDiagnostics(o: TypeOutcome): (sent: seq<Diagnostic>) {
    match o
    case Skipped => []
    case Generated(_, path) => [Note(ProcessorName + " generate: " + path)]
    case Failed(element, message) => [Error(message, Some(element))]
  }

  /** The messages of a run of outcomes, in order. */
  function Diagnostics(outcomes: seq<TypeOutcome>): (r: seq<Diagnostic>)
    ensures |r| <= |outcomes|
  {
    if |outcomes| == 0 then [] else OutcomeDiagnostics(outcomes[0]) + Diagnostics(outcomes[1..])
  }

  /** Appending an outcome appends its messages. */
  lemma {:induction false} DiagnosticsSnoc(outcomes: seq<TypeOutcome>, o: TypeOutcome)
    ensures Diagnostics(outcomes + [o]) == Diagnostics(outcomes) + OutcomeDiagnostics(o)
    decreases |outcomes|
  {
    if |outcomes| == 0 {
      assert outcomes + [o] == [o];
      assert [o][1..] == [];
    } else {
      assert (outcomes + [o])[1..] == outcomes[1..] + [o];
      DiagnosticsSnoc(outcomes[1..], o);
    }
  }

  /** How many outcomes were not skipped, i.e. how many types reached the writer. */
  function HandledCount(outcomes: seq<TypeOutcome>): (n: nat)
    ensures n <= |outcomes|
  {
    if |outcomes| == 0 then 0 else (if outcomes[0].Skipped? then 0 else 1) + HandledCount(outcomes[1..])
  }

  /** Each type that reached the writer sends exactly one message; a skipped type sends none. */
  lemma {:induction false} DiagnosticsCount(outcomes: seq<TypeOutcome>)
    ensures |Diagnostics(outcomes)| == HandledCount(outcomes)
    decreases |outcomes|
  {
    if |outcomes| > 0 {
      DiagnosticsCount(outcomes[1..]);
    }
  }

  /**
   * Every message stems from one outcome: an error carries the message of a
   * failed type and names that very type; a note names the path written for
   * a generated type.
   */
  lemma {:induction false} DiagnosticsAreAttributed(outcomes: seq<TypeOutcome>)
    ensures forall k :: 0 <= k < |Diagnostics(outcomes)| && Diagnostics(outcomes)[k].Error? ==>
              exists i :: 0 <= i < |outcomes| && outcomes[i].Failed? &&
                Diagnostics(outcomes)[k] == Error(outcomes[i].message, Some(outcomes[i].element))
    ensures forall k :: 0 <= k < |Diagnostics(outcomes)| && Diagnostics(outcomes)[k].Note? ==>
              exists i :: 0 <= i < |outcomes| && outcomes[i].Generated? &&
                Diagnostics(outcomes)[k] == Note(ProcessorName + " generate: " + outcomes[i].path)
    decreases |outcomes|
  {
    if |outcomes| > 0 {
      DiagnosticsAreAttributed(outcomes[1..]);
      var head: seq<Diagnostic> := OutcomeDiagnostics(outcomes[0]);
      var tail: seq<Diagnostic> := Diagnostics(outcomes[1..]);
      assert Diagnostics(outcomes) == head + tail;
      forall k | 0 <= k < |head + tail|
        ensures (head + tail)[k].Error? ==>
                  exists i :: 0 <= i < |outcomes| && outcomes[i].Failed? &&
                    (head + tail)[k] == Error(outcomes[i].message, Some(outcomes[i].element))
        ensures (head + tail)[k].Note? ==>
                  exists i :: 0 <= i < |outcomes| && outcomes[i].Generated? &&
                    (head + tail)[k] == Note(ProcessorName + " generate: " + outcomes[i].path)
      {
        if k < |head| {
          assert (head + tail)[k] == head[k];
        } else {
          assert (head + tail)[k] == tail[k - |head|];
          if tail[k - |head|].Error? {
            var j :| 0 <= j < |outcomes[1..]| && outcomes[1..][j].Failed? &&
              tail[k - |head|] == Error(outcomes[1..][j].message, Some(outcomes[1..][j].element));
            assert outcomes[1..][j] == outcomes[j + 1];
          }
          if tail[k - |head|].Note? {
            var j :| 0 <= j < |outcomes[1..]| && outcomes[1..][j].Generated? &&
              tail[k - |head|] == Note(ProcessorName + " generate: " + outcomes[1..][j].path);
            assert outcomes[1..][j] == outcomes[j + 1];
          }
        }
      }
    }
  }

  /** Extending a prefix by the next element gives the next prefix. */
  lemma PrefixSnoc<T>(s: seq<T>, i: nat)
    requires i < |s|
    ensures s[..i + 1] == s[..i] + [s[i]]
  {
  }

  /**
   * The loop of `process` over the annotated types once setup succeeded:
   * every type is handled in order, each exactly as it would be on its own,
   * whatever happened to the types before it, and the messages are those of
   * the outcomes in order.
   */
  method ProcessTypes(types: seq<AnnotatedType>, write: MG.ModelData -> WriteOutcome, clock: nat -> MG.Timestamp)
    returns (outcomes: seq<TypeOutcome>, diagnostics: seq<Diagnostic>)
    ensures |outcomes| == |types|
    ensures forall i :: 0 <= i < |types| ==> outcomes[i] == ProcessType(types[i], write, clock(i))
    ensures diagnostics == Diagnostics(outcomes)
  {
    ghost var expected := seq(|types|, k requires 0 <= k < |types| => ProcessType(types[k], write, clock(k)));
    outcomes, diagnostics := [], [];
    var i := 0;
    while i < |types|
      invariant 0 <= i <= |types|
      invariant outcomes == expected[..i]
      invariant diagnostics == Diagnostics(outcomes)
    {
      var o := ProcessType(types[i], write, clock(i));
      var sent := OutcomeDiagnostics(o);
      DiagnosticsSnoc(outcomes, o);
      PrefixSnoc(expected, i);
      outcomes := outcomes + [o];
      diagnostics := diagnostics + sent;
      i := i + 1;
    }
    assert expected[..i] == expected;
  }

  /**
   * `process(annotations, roundEnv)`. When setup fails, its error is the only
   * message and no type is handled; otherwise the types are handled as
   * `ProcessTypes` describes. The round always claims the annotations.
   */
  method Process(setup: Setup, types: seq<AnnotatedType>, write: MG.ModelData -> WriteOutcome,
                 clock: nat -> MG.Timestamp)
    returns (claimed: bool, outcomes: seq<TypeOutcome>, diagnostics: seq<Diagnostic>)
    ensures claimed
    ensures setup.SetupFailed? ==> outcomes == [] && diagnostics == [Error(setup.message, None)]
    ensures setup.Ready? ==> |outcomes| == |types|
    ensures setup.Ready? ==> forall i :: 0 <= i < |types| ==> outcomes[i] == ProcessType(types[i], write, clock(i))
    ensures setup.Ready? ==> diagnostics == Diagnostics(outcomes)
  {
    if setup.SetupFailed? {
      return true, [], [Error(setup.message, None)];
    }
    outcomes, diagnostics := ProcessTypes(types, write, clock);
    claimed := true;
  }
}
