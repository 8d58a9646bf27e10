/** The batch loops of LintApplication: targets are processed in order, each one
    contributing some output, and the first target that fails (an IOException from
    reading the class, or a failed advisor call) aborts the rest of the batch. */
module Batches {
  import opened Wrappers

  /** What a batch produced, and the target it stopped at, if any. */
  datatype Outcome<T> = Outcome(outputs: seq<T>, failed: Option<string>)

  /** One target's work: its output, or None when it fails. The index is the target's
      position, which decides whether a separator follows. */
  type Step<T> = (nat, string) -> Option<seq<T>>

  function Batch<T>(targets: seq<string>, step: Step<T>): Outcome<T>
  {
    if targets == [] then Outcome([], None)
    else
      var prev := Batch(targets[..|targets| - 1], step);
      var last := targets[|targets| - 1];
      if prev.failed.Some? then prev
      else match step(|targets| - 1, last)
        case None => Outcome(prev.outputs, Some(last))
        case Some(out) => Outcome(prev.outputs + out, None)
  }

  /** Every target before k succeeds. */
  predicate SucceedsBefore<T>(targets: seq<string>, step: Step<T>, k: nat)
    requires k <= |targets|
  {
    forall i :: 0 <= i < k ==> step(i, targets[i]).Some?
  }

  /** The outputs of the first k targets, all of which succeed. */
  function Collected<T>(targets: seq<string>, step: Step<T>, k: nat): seq<T>
    requires k <= |targets| && SucceedsBefore(targets, step, k)
  {
    if k == 0 then [] else Collected(targets, step, k - 1) + step(k - 1, targets[k - 1]).value
  }

  /** One more successful target appends its output. */
  lemma CollectedStep<T>(targets: seq<string>, step: Step<T>, k: nat)
    requires k < |targets| && SucceedsBefore(targets, step, k) && step(k, targets[k]).Some?
    ensures SucceedsBefore(targets, step, k + 1)
    ensures Collected(targets, step, k + 1) == Collected(targets, step, k) + step(k, targets[k]).value
  {
  }

  /** While every target succeeds the batch collects all outputs and reports no failure. */
  lemma {:induction false} BatchSucceeds<T>(targets: seq<string>, step: Step<T>, k: nat)
    requires k <= |targets| && SucceedsBefore(targets, step, k)
    ensures Batch(targets[..k], step) == Outcome(Collected(targets, step, k), None)
  {
    if k > 0 {
      BatchSucceeds(targets, step, k - 1);
      assert targets[..k][..k - 1] == targets[..k - 1];
    }
  }

  /** Once a prefix has failed, later targets change nothing. */
  lemma {:induction false} BatchStaysFailed<T>(targets: seq<string>, step: Step<T>, k: nat)
    requires k <= |targets| && Batch(targets[..k], step).failed.Some?
    ensures Batch(targets, step) == Batch(targets[..k], step)
    decreases |targets|
  {
    if k < |targets| {
      var init := targets[..|targets| - 1];
      assert init[..k] == targets[..k];
      BatchStaysFailed(init, step, k);
    } else {
      assert targets[..k] == targets;
    }
  }

  /** The first failing target stops the batch: the outputs are those of the targets
      before it, and it is the one named as failed. */
  lemma BatchFails<T>(targets: seq<string>, step: Step<T>, k: nat)
    requires k < |targets| && SucceedsBefore(targets, step, k)
    requires step(k, targets[k]).None?
    ensures Batch(targets, step) == Outcome(Collected(targets, step, k), Some(targets[k]))
  {
    BatchSucceeds(targets, step, k);
    assert targets[..k + 1][..k] == targets[..k];
    BatchStaysFailed(targets, step, k + 1);
  }

  /** Without failures the batch collects the outputs of every target. */
  lemma BatchCompletes<T>(targets: seq<string>, step: Step<T>)
    requires SucceedsBefore(targets, step, |targets|)
    ensures Batch(targets, step) == Outcome(Collected(targets, step, |targets|), None)
  {
    BatchSucceeds(targets, step, |targets|);
    assert targets[..|targets|] == targets;
  }

  /** A batch that is not complete stops at a first failing target. */
  lemma FirstFailure<T>(targets: seq<string>, step: Step<T>) returns (k: nat)
    requires !SucceedsBefore(targets, step, |targets|)
    ensures k < |targets| && SucceedsBefore(targets, step, k) && step(k, targets[k]).None?
  {
    k := 0;
    while step(k, targets[k]).Some?
      invariant k < |targets| && SucceedsBefore(targets, step, k)
      invariant exists j :: k <= j < |targets| && step(j, targets[j]).None?
      decreases |targets| - k
    {
      k := k + 1;
    }
  }

  /** One output per target (the lint reports). */
  function Single<T>(produce: string -> Option<T>): Step<T>
  {
    (i: nat, target: string) => if produce(target).Some? then Some([produce(target).value]) else None
  }

  /** One output per target, followed by an empty line unless it is the last of n
      (the diagrams and the advice printed to the console). */
  function Separated(produce: string -> Option<string>, n: nat): Step<string>
  {
    (i: nat, target: string) =>
      if produce(target).Some? then Some([produce(target).value] + (if i + 1 < n then [""] else []))
      else None
  }

  lemma {:induction false} SingleCollected<T>(targets: seq<string>, produce: string -> Option<T>, k: nat)
    requires k <= |targets| && SucceedsBefore(targets, Single(produce), k)
    ensures |Collected(targets, Single(produce), k)| == k
    ensures forall i :: 0 <= i < k ==> Collected(targets, Single(produce), k)[i] == produce(targets[i]).value
  {
    if k > 0 {
      SingleCollected(targets, produce, k - 1);
    }
  }

  /** In a batch of n targets of which the first k succeed, output 2i is the i-th target's
      text and output 2i + 1 the empty separator line; only the last target has none. */
  lemma {:induction false} SeparatedCollected(targets: seq<string>, produce: string -> Option<string>, k: nat)
    requires k <= |targets| && SucceedsBefore(targets, Separated(produce, |targets|), k)
    ensures |Collected(targets, Separated(produce, |targets|), k)|
      == if k == |targets| && k > 0 then 2 * k - 1 else 2 * k
    ensures forall i :: 0 <= i < k ==>
      (produce(targets[i]).Some? && Collected(targets, Separated(produce, |targets|), k)[2 * i] == produce(targets[i]).value)
    ensures forall i :: 0 <= i < k && i + 1 < |targets| ==>
      Collected(targets, Separated(produce, |targets|), k)[2 * i + 1] == ""
  {
    var step := Separated(produce, |targets|);
    if k > 0 {
      SeparatedCollected(targets, produce, k - 1);
      assert step(k - 1, targets[k - 1]).Some?;
    }
  }

  /** A batch with one output per target: the outputs belong to a prefix of the targets,
      in order; the batch is complete exactly when every target succeeds, and otherwise
      the target right after that prefix is the one that failed. */
  lemma SingleBatch<T>(targets: seq<string>, produce: string -> Option<T>)
    ensures var o := Batch(targets, Single(produce));
      && |o.outputs| <= |targets|
      && (forall i :: 0 <= i < |o.outputs| ==> produce(targets[i]).Some? && o.outputs[i] == produce(targets[i]).value)
      && (o.failed.None? <==> forall i :: 0 <= i < |targets| ==> produce(targets[i]).Some?)
      && (o.failed.None? ==> |o.outputs| == |targets|)
      && (o.failed.Some? ==>
            |o.outputs| < |targets| && produce(targets[|o.outputs|]).None?
            && o.failed.value == targets[|o.outputs|])
  {
    var step := Single(produce);
    if SucceedsBefore(targets, step, |targets|) {
      BatchCompletes(targets, step);
      SingleCollected(targets, produce, |targets|);
    } else {
      var k := FirstFailure(targets, step);
      BatchFails(targets, step, k);
      SingleCollected(targets, produce, k);
    }
  }
}
