/** DCFilter: a rolling-average DC blocker. The state is the running total
    queuetotal and the FIFO queuesamples of the most recent samples; the
    window holds floor(samplerate/20) samples (50 ms). */
module DCBlock {

  datatype Option<T> = None | Some(value: T)

  function Sum(q: seq<real>): real
  {
    if q == [] then 0.0 else q[0] + Sum(q[1..])
  }

  lemma {:induction false} SumAppend(q: seq<real>, x: real)
    ensures Sum(q + [x]) == Sum(q) + x
  {
    if q == [] {
      assert [x][1..] == [];
    } else {
      assert (q + [x])[1..] == q[1..] + [x];
      SumAppend(q[1..], x);
    }
  }

  lemma {:induction false} SumConstant(q: seq<real>, c: real)
    requires forall i :: 0 <= i < |q| ==> q[i] == c
    ensures Sum(q) == |q| as real * c
  {
    if q != [] {
      SumConstant(q[1..], c);
    }
  }

  /** queueLength = floor(samplerate / 20). A rate below 20 gives 0. */
  function WindowLength(sampleRate: real): (w: nat)
    ensures 20.0 <= sampleRate ==> 1 <= w && (w as real) * 20.0 <= sampleRate < (w as real + 1.0) * 20.0
  {
    if sampleRate < 20.0 then 0 else (sampleRate / 20.0).Floor
  }

  datatype FilterState = FilterState(queue: seq<real>, total: real)

  /** The state invariant: the total is the sum of the queue, and the queue
      is no longer than the window. */
  predicate Consistent(w: nat, s: FilterState)
  {
    s.total == Sum(s.queue) && |s.queue| <= w
  }

  function Empty(): FilterState
  {
    FilterState([], 0.0)
  }

  datatype Step = Step(state: FilterState, out: real)

  /** One call of DCFilter: push the sample, pop the oldest one when the
      queue exceeds the window, and subtract the mean of the queue. A window
      of 0 leaves the sample and the state alone (see DCStepAsWritten for
      what the code does there). */
  function DCStep(w: nat, s: FilterState, x: real): (r: Step)
    ensures w == 0 ==> r.state == s && r.out == x
    ensures 1 <= w ==> |r.state.queue| >= 1
  {
    if w == 0 then Step(s, x)
    else
      var total := s.total + x;
      var queue := s.queue + [x];
      if |queue| > w then
        var popped := FilterState(queue[1..], total - queue[0]);
        Step(popped, x - popped.total / |popped.queue| as real)
      else
        Step(FilterState(queue, total), x - total / |queue| as real)
  }

  /** A step keeps the invariant; with a window of at least one sample the
      queue ends with the new sample, keeps the most recent
      min(|queue|+1, w) samples, and the output is the sample minus their mean. */
  lemma DCStepKeepsInvariant(w: nat, s: FilterState, x: real)
    requires Consistent(w, s)
    ensures Consistent(w, DCStep(w, s, x).state)
    ensures 1 <= w ==>
      var r := DCStep(w, s, x);
      var pushed := s.queue + [x];
      1 <= |r.state.queue| &&
      r.state.queue == pushed[|pushed| - |r.state.queue|..] &&
      |r.state.queue| == (if |pushed| > w then w else |pushed|) &&
      r.out == x - Sum(r.state.queue) / |r.state.queue| as real
  {
    if 1 <= w {
      SumAppend(s.queue, x);
      var pushed := s.queue + [x];
      assert Sum(pushed) == pushed[0] + Sum(pushed[1..]);
    }
  }

  /** A constant input meeting a queue that holds only that constant comes
      out as 0, and the queue still holds only that constant. */
  lemma DCStepConstant(w: nat, s: FilterState, c: real)
    requires 1 <= w && Consistent(w, s)
    requires forall i :: 0 <= i < |s.queue| ==> s.queue[i] == c
    ensures DCStep(w, s, c).out == 0.0
    ensures forall i :: 0 <= i < |DCStep(w, s, c).state.queue| ==> DCStep(w, s, c).state.queue[i] == c
  {
    SumConstant(s.queue, c);
    var n := |s.queue| as real;
    var queue := s.queue + [c];
    if |queue| > w {
      assert queue[0] == c;
      MeanOfConstant(s.total + c - queue[0], |queue[1..]| as real, c);
    } else {
      assert (|queue| as real) * c == n * c + c;
      MeanOfConstant(s.total + c, |queue| as real, c);
    }
  }

  lemma MeanOfConstant(total: real, n: real, c: real)
    requires 0.0 < n && total == n * c
    ensures total / n == c
  {
  }

  /** DCFilter exactly as the code computes it, with the IEEE 0/0 of a
      zero-length window shown as None. */
  function DCStepAsWritten(w: nat, s: FilterState, x: real): (r: Option<Step>)
    ensures r == None <==> (w == 0 && s.queue == [])
  {
    var total := s.total + x;
    var queue := s.queue + [x];
    var q := if |queue| > w then queue[1..] else queue;
    var t := if |queue| > w then total - queue[0] else total;
    if |q| == 0 then None
    else Some(Step(FilterState(q, t), x - t / |q| as real))
  }

  /** With a window of at least one sample the model's step is the code's. */
  lemma AsWrittenAgrees(w: nat, s: FilterState, x: real)
    requires 1 <= w
    ensures DCStepAsWritten(w, s, x) == Some(DCStep(w, s, x))
  {
  }

  /** Below 20 Hz the window is 0: the first sample is pushed and popped
      again and the code divides 0 by a queue size of 0. */
  lemma AsWrittenZeroWindow(sampleRate: real, x: real)
    requires 0.0 <= sampleRate < 20.0
    ensures WindowLength(sampleRate) == 0
    ensures DCStepAsWritten(WindowLength(sampleRate), Empty(), x) == None
  {
  }

  datatype Trace = Trace(state: FilterState, outs: seq<real>)

  /** DCFilter applied to the samples xs in order, from state s0. */
  function DCRun(w: nat, s0: FilterState, xs: seq<real>): (r: Trace)
    ensures |r.outs| == |xs|
    decreases |xs|
  {
    if xs == [] then Trace(s0, [])
    else
      var prev := DCRun(w, s0, xs[..|xs| - 1]);
      var step := DCStep(w, prev.state, xs[|xs| - 1]);
      Trace(step.state, prev.outs + [step.out])
  }

  lemma {:induction false} DCRunKeepsInvariant(w: nat, s0: FilterState, xs: seq<real>)
    requires Consistent(w, s0)
    ensures Consistent(w, DCRun(w, s0, xs).state)
    decreases |xs|
  {
    if xs != [] {
      DCRunKeepsInvariant(w, s0, xs[..|xs| - 1]);
      DCStepKeepsInvariant(w, DCRun(w, s0, xs[..|xs| - 1]).state, xs[|xs| - 1]);
    }
  }

  /** Fed a constant signal from an empty queue, the blocker outputs 0 at
      every sample: the offset is removed from the start. */
  lemma {:induction false} DCRunRemovesConstant(w: nat, c: real, xs: seq<real>)
    requires 1 <= w
    requires forall i :: 0 <= i < |xs| ==> xs[i] == c
    ensures forall i :: 0 <= i < |xs| ==> DCRun(w, Empty(), xs).outs[i] == 0.0
    ensures forall i :: 0 <= i < |DCRun(w, Empty(), xs).state.queue| ==> DCRun(w, Empty(), xs).state.queue[i] == c
    decreases |xs|
  {
    if xs != [] {
      var init := xs[..|xs| - 1];
      DCRunRemovesConstant(w, c, init);
      DCRunKeepsInvariant(w, Empty(), init);
      DCStepConstant(w, DCRun(w, Empty(), init).state, c);
    }
  }
}
