/** `main` of scripts/download_data.py: the class-balanced selection over the sample
    stream. The stream is a finite sequence of samples; each one carries its label
    id and whether its image survives `verify`, the RGB conversion and `save` (the
    file system and the image library are not modelled). */
module DownloadData {
  import opened Wrappers
  import Strings

  /** `TARGET_TOTAL` */
  const TargetTotal: nat := 1000

  /** `OUTPUT_DIR` */
  const OutputDir: string := "data/raw"

  /** A streamed sample: `sample['label']`, and whether processing its image
      succeeds rather than raising. */
  datatype Sample = Sample(labelId: nat, imageOk: bool)

  /** One entry of `metadata`. */
  datatype Meta = Meta(id: string, imagePath: string, labelId: nat, labelName: string)

  /** `counters`, `metadata` and `total_saved`. */
  datatype State = State(counters: map<string, nat>, metadata: seq<Meta>, totalSaved: nat)

  /** How the loop ends: it ran out of samples or hit `break` (`raised` false), or
      `labels[label_id]` raised outside the inner `try` (`raised` true); either way
      the `finally` block writes the metadata collected so far. */
  datatype Finish = Finish(state: State, raised: bool)

  /** `(TARGET_TOTAL // num_classes) + 1` */
  function TargetPerClass(numClasses: nat): nat
    requires numClasses > 0
  {
    TargetTotal / numClasses + 1
  }

  /** `f"doc_{total_saved:04d}"` */
  function DocId(n: nat): string {
    "doc_" + Strings.Pad4(n)
  }

  /** `os.path.join(OUTPUT_DIR, label_name, file_name)` */
  function ImagePath(labelName: string, n: nat): string {
    OutputDir + "/" + labelName + "/" + DocId(n) + ".png"
  }

  /** `{name: 0 for name in labels}` */
  function InitialCounters(labels: seq<string>): map<string, nat> {
    map name | name in labels :: 0
  }

  function Initial(labels: seq<string>): State {
    State(InitialCounters(labels), [], 0)
  }

  /** Every class name has a counter. */
  predicate HasCounters(labels: seq<string>, st: State) {
    forall i :: 0 <= i < |labels| ==> labels[i] in st.counters
  }

  datatype Step = Break | Abort | Next(state: State)

  /** One iteration of the loop body. */
  function StepOn(labels: seq<string>, perClass: nat, st: State, sample: Sample): Step
    requires HasCounters(labels, st)
  {
    if st.totalSaved >= TargetTotal then Break
    else if sample.labelId >= |labels| then Abort
    else
      var name := labels[sample.labelId];
      if st.counters[name] >= perClass then Next(st)
      else if !sample.imageOk then Next(st)
      else
        var n := st.totalSaved;
        Next(State(st.counters[name := st.counters[name] + 1],
                   st.metadata + [Meta(DocId(n), ImagePath(name, n), sample.labelId, name)],
                   n + 1))
  }

  lemma StepKeepsCounters(labels: seq<string>, perClass: nat, st: State, sample: Sample)
    requires HasCounters(labels, st)
    ensures StepOn(labels, perClass, st, sample).Next? ==> HasCounters(labels, StepOn(labels, perClass, st, sample).state)
  {
  }

  /** The loop from `st` over the rest of the stream. */
  function Run(labels: seq<string>, perClass: nat, st: State, samples: seq<Sample>): Finish
    requires HasCounters(labels, st)
    decreases |samples|
  {
    if samples == [] then Finish(st, false)
    else
      StepKeepsCounters(labels, perClass, st, samples[0]);
      match StepOn(labels, perClass, st, samples[0])
      case Break => Finish(st, false)
      case Abort => Finish(st, true)
      case Next(st') => Run(labels, perClass, st', samples[1..])
  }

  /** The whole script on a stream with these class names: None where
      `num_classes` is 0 and the division raises before the loop. */
  function Download(labels: seq<string>, samples: seq<Sample>): Option<Finish> {
    if |labels| == 0 then None
    else Some(Run(labels, TargetPerClass(|labels|), Initial(labels), samples))
  }

  /** The download loop, with its `break`, `continue` and skipped samples. */
  method DownloadLoop(labels: seq<string>, samples: seq<Sample>) returns (r: Option<Finish>)
    ensures r == Download(labels, samples)
  {
    if |labels| == 0 {
      return None;
    }
    var targetPerClass := TargetTotal / |labels| + 1;
    var counters: map<string, nat> := map name | name in labels :: 0;
    var metadata: seq<Meta> := [];
    var totalSaved := 0;
    var i := 0;
    while i < |samples|
      invariant i <= |samples|
      invariant HasCounters(labels, State(counters, metadata, totalSaved))
      invariant Run(labels, targetPerClass, State(counters, metadata, totalSaved), samples[i..]) ==
                Download(labels, samples).value
      decreases |samples| - i
    {
      var sample := samples[i];
      assert samples[i..][0] == sample && samples[i..][1..] == samples[i + 1..];
      if totalSaved >= TargetTotal {
        break;
      }
      if sample.labelId >= |labels| {
        return Some(Finish(State(counters, metadata, totalSaved), true));
      }
      var labelName := labels[sample.labelId];
      if counters[labelName] >= targetPerClass {
        i := i + 1;
        continue;
      }
      if !sample.imageOk {
        i := i + 1;
        continue;
      }
      var fileName := DocId(totalSaved);
      metadata := metadata + [Meta(fileName, OutputDir + "/" + labelName + "/" + fileName + ".png", sample.labelId, labelName)];
      counters := counters[labelName := counters[labelName] + 1];
      totalSaved := totalSaved + 1;
      i := i + 1;
    }
    return Some(Finish(State(counters, metadata, totalSaved), false));
  }

  // ---------------------------------------------------------------------------
  // Properties
  // ---------------------------------------------------------------------------

  /** The number of metadata entries for class `name`. */
  function CountOf(metadata: seq<Meta>, name: string): nat {
    if metadata == [] then 0
    else CountOf(metadata[..|metadata| - 1], name) + (if metadata[|metadata| - 1].labelName == name then 1 else 0)
  }

  /** What the loop keeps true: the total is the number of entries, each counter is
      the number of entries of its class and at most the per-class target, the total
      is at most the overall target, entry n has id "doc_{n:04d}", and every entry
      names a class whose id it carries. */
  predicate Good(labels: seq<string>, perClass: nat, st: State) {
    HasCounters(labels, st) &&
    st.totalSaved == |st.metadata| && st.totalSaved <= TargetTotal &&
    (forall name :: name in st.counters ==> st.counters[name] == CountOf(st.metadata, name) && st.counters[name] <= perClass) &&
    (forall n :: 0 <= n < |st.metadata| ==> st.metadata[n].id == DocId(n)) &&
    (forall n :: 0 <= n < |st.metadata| ==>
       st.metadata[n].labelId < |labels| && st.metadata[n].labelName == labels[st.metadata[n].labelId] &&
       st.metadata[n].labelName in st.counters)
  }

  lemma CountOfSnoc(metadata: seq<Meta>, m: Meta, name: string)
    ensures CountOf(metadata + [m], name) == CountOf(metadata, name) + (if m.labelName == name then 1 else 0)
  {
    assert (metadata + [m])[..|metadata|] == metadata;
  }

  lemma InitialGood(labels: seq<string>)
    requires |labels| > 0
    ensures Good(labels, TargetPerClass(|labels|), Initial(labels))
  {
  }

  /** Every step keeps the invariant. */
  lemma StepGood(labels: seq<string>, perClass: nat, st: State, sample: Sample)
    requires Good(labels, perClass, st)
    ensures StepOn(labels, perClass, st, sample).Next? ==> Good(labels, perClass, StepOn(labels, perClass, st, sample).state)
  {
    var step := StepOn(labels, perClass, st, sample);
    if step.Next? && step.state != st {
      var name := labels[sample.labelId];
      var m := Meta(DocId(st.totalSaved), ImagePath(name, st.totalSaved), sample.labelId, name);
      forall k | k in step.state.counters
        ensures step.state.counters[k] == CountOf(step.state.metadata, k) && step.state.counters[k] <= perClass
      {
        CountOfSnoc(st.metadata, m, k);
      }
    }
  }

  /** The invariant holds at the end of the loop, however it ends. */
  lemma {:induction false} RunGood(labels: seq<string>, perClass: nat, st: State, samples: seq<Sample>)
    requires Good(labels, perClass, st)
    ensures Good(labels, perClass, Run(labels, perClass, st, samples).state)
    decreases |samples|
  {
    if samples != [] {
      StepGood(labels, perClass, st, samples[0]);
      var step := StepOn(labels, perClass, st, samples[0]);
      if step.Next? {
        RunGood(labels, perClass, step.state, samples[1..]);
      }
    }
  }

  /** The saved set: no class over `TARGET_TOTAL // num_classes + 1`, at most
      `TARGET_TOTAL` in all, as many entries as the total, and the ids "doc_0000",
      "doc_0001", … in order, hence pairwise distinct. */
  lemma DownloadBalanced(labels: seq<string>, samples: seq<Sample>)
    requires |labels| > 0
    ensures var st := Download(labels, samples).value.state;
      st.totalSaved <= TargetTotal && st.totalSaved == |st.metadata| &&
      (forall name :: name in st.counters ==>
         st.counters[name] <= TargetTotal / |labels| + 1 && st.counters[name] == CountOf(st.metadata, name)) &&
      (forall n :: 0 <= n < |st.metadata| ==> st.metadata[n].id == DocId(n)) &&
      (forall n, k :: 0 <= n < k < |st.metadata| ==> st.metadata[n].id != st.metadata[k].id)
  {
    InitialGood(labels);
    RunGood(labels, TargetPerClass(|labels|), Initial(labels), samples);
    var st := Download(labels, samples).value.state;
    forall n, k | 0 <= n < k < |st.metadata| ensures st.metadata[n].id != st.metadata[k].id {
      if st.metadata[n].id == st.metadata[k].id {
        assert "doc_" + Strings.Pad4(n) == "doc_" + Strings.Pad4(k);
        assert Strings.Pad4(n) == ("doc_" + Strings.Pad4(n))[4..];
        assert Strings.Pad4(k) == ("doc_" + Strings.Pad4(k))[4..];
        Strings.Pad4Injective(n, k);
      }
    }
  }

  /** A sample whose image raises, or whose class is full, changes nothing. */
  lemma SkippedSampleKeepsState(labels: seq<string>, perClass: nat, st: State, sample: Sample)
    requires HasCounters(labels, st) && st.totalSaved < TargetTotal && sample.labelId < |labels|
    requires !sample.imageOk || st.counters[labels[sample.labelId]] >= perClass
    ensures StepOn(labels, perClass, st, sample) == Next(st)
  {
  }

  /** A saved sample adds exactly one entry, for its own class. */
  lemma SavedSample(labels: seq<string>, perClass: nat, st: State, sample: Sample)
    requires HasCounters(labels, st) && st.totalSaved < TargetTotal && sample.labelId < |labels|
    requires sample.imageOk && st.counters[labels[sample.labelId]] < perClass
    ensures var st' := StepOn(labels, perClass, st, sample).state;
      st'.totalSaved == st.totalSaved + 1 &&
      st'.metadata == st.metadata + [Meta(DocId(st.totalSaved), ImagePath(labels[sample.labelId], st.totalSaved),
                                          sample.labelId, labels[sample.labelId])] &&
      (forall name :: name in st.counters ==>
         st'.counters[name] == st.counters[name] + (if name == labels[sample.labelId] then 1 else 0))
  {
  }

  /** Once the target is reached, the loop stops at the next sample. */
  lemma {:induction false} StopsAtTarget(labels: seq<string>, perClass: nat, st: State, samples: seq<Sample>)
    requires HasCounters(labels, st) && st.totalSaved >= TargetTotal
    ensures Run(labels, perClass, st, samples) == Finish(st, false)
  {
  }

  /** No class names, no loop: the division raises first. */
  lemma NoClassesRaises(samples: seq<Sample>)
    ensures Download([], samples) == None
  {
  }
}
