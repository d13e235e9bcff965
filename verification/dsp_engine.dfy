/**
 * The block engine: its buffers, and the loops that mix one block.
 */
module DspEngine {
  import opened AudioGraph
  import opened BlockMixer
  import opened ExecutionOrder
  import opened GraphRebuild
  import opened Limits

  /** A node's own input for one block: what its ring or the tone delivered, padded with silence,
      so that a short read never repeats older samples. */
  function OwnInput(got: seq<real>, size: nat): (r: seq<real>)
    ensures |r| == size
  {
    seq(size, c requires 0 <= c < size => At(got, c))
  }

  function OwnInputs(g: Graph, frames: nat, got: seq<seq<real>>): (r: seq<seq<real>>)
    requires Shaped(g) && |got| == MAX_NODES
    ensures |r| == MAX_NODES
  {
    seq(MAX_NODES, n requires 0 <= n < MAX_NODES =>
      OwnInput(if g.kinds[n].Source() then got[n] else [], frames * g.widths[n]))
  }

  /** Sample by sample: sources bring in what they got and silence after it, all other nodes bring in
      silence. */
  lemma OwnInputIs(g: Graph, frames: nat, got: seq<seq<real>>, n: nat, c: nat)
    requires Shaped(g) && |got| == MAX_NODES && n < MAX_NODES && c < frames * g.widths[n]
    ensures var own := OwnInputs(g, frames, got)[n];
      && |own| == frames * g.widths[n]
      && own[c] == match g.kinds[n]
                   case Tone => At(got[n], c)
                   case HardwareCapture => At(got[n], c)
                   case ClientCapture => At(got[n], c)
                   case _ => 0.0
    ensures At(got[n], c) == if c < |got[n]| then got[n][c] else 0.0
  {
  }

  /** Nothing routed, as the engine is constructed. */
  function EmptyGraph(): Graph {
    Graph([], seq(MAX_NODES, n => 0), seq(MAX_NODES, n => Virtual), [], seq(MAX_NODES, n => -1), seq(MAX_NODES, n => []))
  }

  class BlockEngine<!S(!new), !M(!new)> {
    const frames: nat
    const process: Process<S>
    const master: (M, seq<real>) -> (M, seq<real>)

    var graph: Graph
    const buffers: array2<real>
    const feedback: array2<real>
    const scratch: array<real>
    var dsp: seq<Slot<S>>
    var masterState: M
    var outputs: map<nat, seq<real>>

    constructor (frames: nat, process: Process<S>, master: (M, seq<real>) -> (M, seq<real>), masterState: M)
      requires KeepsLength(process) && KeepsLength(master)
      ensures Valid() && fresh(buffers) && fresh(feedback) && fresh(scratch)
      ensures this.frames == frames && this.process == process && this.master == master && this.masterState == masterState
      ensures graph == EmptyGraph() && dsp == seq(MAX_ROUTES, i => Slot([], 1.0, false)) && outputs == map[]
    {
      this.frames := frames;
      this.process := process;
      this.master := master;
      this.masterState := masterState;
      graph := EmptyGraph();
      buffers := new real[MAX_NODES, frames * MAX_CHANNELS]((n, c) => 0.0);
      feedback := new real[MAX_NODES, frames * MAX_CHANNELS]((n, c) => 0.0);
      scratch := new real[frames](f => 0.0);
      dsp := seq(MAX_ROUTES, i => Slot([], 1.0, false));
      outputs := map[];
    }

    ghost predicate Storage() {
      && buffers.Length0 == MAX_NODES && buffers.Length1 == frames * MAX_CHANNELS
      && feedback.Length0 == MAX_NODES && feedback.Length1 == frames * MAX_CHANNELS
      && scratch.Length == frames && buffers != feedback
      && KeepsLength(process) && KeepsLength(master)
    }

    ghost predicate Valid()
      reads this
    {
      Storage() && WellBuilt(graph) && |dsp| == MAX_ROUTES
    }

    /** One node's buffer. */
    ghost function Row(n: nat): (r: seq<real>)
      requires n < buffers.Length0
      reads buffers
      ensures |r| == buffers.Length1
    {
      seq(buffers.Length1, c requires 0 <= c < buffers.Length1 reads buffers => buffers[n, c])
    }

    /** All buffers. */
    ghost function Rows(): (r: seq<seq<real>>)
      reads buffers
      ensures |r| == buffers.Length0 && forall n :: 0 <= n < |r| ==> r[n] == Row(n)
    {
      seq(buffers.Length0, n requires 0 <= n < buffers.Length0 reads buffers => Row(n))
    }

    lemma RowFits(n: nat)
      requires Storage() && n < MAX_NODES && WellBuilt(graph)
      ensures frames * graph.widths[n] <= buffers.Length1
    {
      MulMono(graph.widths[n], MAX_CHANNELS, frames);
    }

    // ---------- Single cells and rows ----------

    method SetCell(n: nat, c: nat, v: real)
      requires n < buffers.Length0 && c < buffers.Length1
      modifies buffers
      ensures Rows() == old(Rows())[n := old(Row(n))[c := v]]
    {
      buffers[n, c] := v;
      ghost var now, want := Rows(), old(Rows())[n := old(Row(n))[c := v]];
      forall m | 0 <= m < buffers.Length0 ensures now[m] == want[m] {
        if m == n {
          assert Row(m) == old(Row(n))[c := v];
        } else {
          assert Row(m) == old(Row(m));
        }
      }
    }

    method AddToCell(n: nat, c: nat, v: real)
      requires n < buffers.Length0 && c < buffers.Length1
      modifies buffers
      ensures Rows() == old(Rows())[n := old(Row(n))[c := old(Row(n))[c] + v]]
    {
      SetCell(n, c, buffers[n, c] + v);
    }

    /** Overwriting the cells in use of one buffer. */
    method SetCells(n: nat, cells: seq<real>)
      requires n < buffers.Length0 && |cells| <= buffers.Length1
      modifies buffers
      ensures Rows() == old(Rows())[n := cells + old(Row(n))[|cells|..]]
    {
      ghost var rows, row := Rows(), Row(n);
      SpliceEnds(row, cells);
      assert rows[n := row] == rows;
      for c := 0 to |cells|
        invariant Rows() == rows[n := Splice(row, cells, c)]
      {
        SpliceNext(row, cells, c);
        assert Rows()[n] == Splice(row, cells, c);
        SetCell(n, c, cells[c]);
      }
    }

    /** Copying one channel of a buffer to the scratch block. A route that ran against the order
        would read the previous block instead. */
    method CopyTap(n: nat, w: nat, ch: nat, isFeedback: bool)
      requires Storage() && n < MAX_NODES && ch < w && frames * w <= buffers.Length1
      modifies scratch
      ensures !isFeedback ==> scratch[..] == Tap(Row(n), w, frames, ch)
    {
      for f := 0 to frames
        invariant !isFeedback ==> forall k :: 0 <= k < f ==> scratch[k] == Tap(Row(n), w, frames, ch)[k]
      {
        CellBound(w, frames, f, ch);
        scratch[f] := if isFeedback then feedback[n, Cell(w, f, ch)] else buffers[n, Cell(w, f, ch)];
      }
    }

    /** Running the chain of a slot on the scratch block. */
    method RunChain(slot: Slot<S>) returns (after: seq<S>)
      requires Storage()
      modifies scratch
      ensures after == RunTo(process, slot.processors, old(scratch[..]), |slot.processors|).0
      ensures scratch[..] == RunTo(process, slot.processors, old(scratch[..]), |slot.processors|).1
    {
      after := slot.processors;
      for k := 0 to |slot.processors|
        invariant (after, scratch[..]) == RunTo(process, slot.processors, old(scratch[..]), k)
      {
        ghost var before := scratch[..];
        var (q, b) := process(slot.processors[k], scratch[..]);
        assert |process(slot.processors[k], before).1| == |before|;
        after := after[k := q];
        forall f | 0 <= f < scratch.Length {
          scratch[f] := b[f];
        }
        assert scratch[..] == b;
      }
    }

    /** Adding the scratch block, times a gain, to one channel of a buffer. */
    method Accumulate(n: nat, w: nat, ch: nat, gain: real)
      requires n < buffers.Length0 && ch < w && frames * w <= buffers.Length1 && scratch.Length == frames
      modifies buffers
      ensures Rows() == old(Rows())[n := AddChannel(old(Row(n)), w, ch, Scaled(scratch[..], gain), frames)]
    {
      ghost var block, rows, row := Scaled(scratch[..], gain), Rows(), Row(n);
      AddChannelNone(row, w, ch, block);
      assert rows[n := row] == rows;
      for f := 0 to frames
        invariant Rows() == rows[n := AddChannel(row, w, ch, block, f)]
      {
        CellBound(w, frames, f, ch);
        AddChannelNext(row, w, ch, block, f);
        assert Rows()[n] == AddChannel(row, w, ch, block, f);
        var v := scratch[f] * gain;
        assert v == At(block, f);
        AddToCell(n, Cell(w, f, ch), v);
      }
    }

    // ---------- Routes and nodes ----------

    /** The route's DSP on the scratch block; returns the gain to mix with. The slot stays pinned
        while its chain runs. */
    method RunDsp(id: nat, routeGain: real) returns (gain: real)
      requires Storage() && |dsp| == MAX_ROUTES
      modifies this`dsp, scratch
      ensures dsp == AdvanceDsp(process, old(dsp), id, old(scratch[..]))
      ensures Scaled(scratch[..], gain) == Output(process, Found(old(dsp), id), routeGain, old(scratch[..]))
    {
      ghost var block := scratch[..];
      gain := routeGain;
      if Supported(id) {
        var slot := dsp[id];
        if slot.active {
          var after := RunChain(slot);
          dsp := dsp[id := slot.(processors := after)];
          gain := Combined(gain, slot.gain);
          OutputActive(process, slot, routeGain, block, scratch[..]);
          return;
        }
        assert dsp[id := slot] == dsp;
      }
      assert scratch[..] == block;
    }

    /** Mixing one route: tap, chain, gain, accumulate. The feedback branch is never taken. What
        control threads publish meanwhile arrives before the slot is pinned or after the run. */
    method MixRoute(i: nat, landing: Landing<S>)
      requires Valid() && i < |graph.routes| && ValidRoute(graph, i) && graph.routes[i].source in graph.order
      modifies this`dsp, buffers, scratch
      ensures Valid()
      ensures EndsFit(graph, frames, old(Rows()), i)
      ensures dsp == DspAfter(process, graph, frames, old(dsp), landing, old(Rows()), i)
      ensures Rows() == RowsAfter(process, graph, frames, old(dsp), landing, old(Rows()), i)
    {
      var r := graph.routes[i];
      var isFeedback := false;
      if graph.position[r.source] != -1 && graph.position[r.destination] != -1 {
        if graph.position[r.source] >= graph.position[r.destination] {
          isFeedback := true;
        }
      }
      assert !isFeedback;
      RowFits(r.source);
      RowFits(r.destination);
      CopyTap(r.source, graph.widths[r.source], r.sourceChannel, isFeedback);
      dsp := Landed(dsp, landing.before);
      var gain := RunDsp(r.id, r.gain);
      dsp := Landed(dsp, landing.during);
      Accumulate(r.destination, graph.widths[r.destination], r.destinationChannel, gain);
    }

    /** The block-wide values a block is judged against; the slots come from its history. */
    ghost function SettingFor(got: seq<seq<real>>, landings: seq<Landing<S>>): Setting<S>
      requires Shaped(graph) && |got| == MAX_NODES
      reads this
    {
      Setting(frames, graph, OwnInputs(graph, frames, got), process, seq(|graph.routes|, i => Slot([], 1.0, false)), landings)
    }

    lemma SettingIsWell(got: seq<seq<real>>, landings: seq<Landing<S>>)
      requires Valid() && |got| == MAX_NODES && |landings| == |graph.routes|
      ensures WellSet(SettingFor(got, landings))
    {
    }

    /** The engine and the history of the current block agree. */
    ghost predicate Agrees(p: Setting<S>, t: Trace<S>)
      requires WellSet(p)
      reads this
    {
      Valid() && p.g == graph && p.frames == frames && p.process == process
      && Threaded(p, t) && t.states[|t.acts|] == dsp
    }

    /** During node k's turn: the history since t0 only mixed routes, and the buffers of the nodes
        up to k are still `rows`. */
    ghost predicate Turn(k: nat, p: Setting<S>, t0: Trace<S>, t: Trace<S>, rows: seq<seq<real>>)
      requires Storage() && WellSet(p) && k < |graph.order|
      reads this, buffers
    {
      Agrees(p, t) && InTurn(p, t0, t, Rows(), rows, k)
    }

    /** Mixing all outgoing routes of node k. */
    method MixOutgoing(k: nat, landings: seq<Landing<S>>, ghost p: Setting<S>, ghost t: Trace<S>) returns (ghost t': Trace<S>)
      requires Storage() && WellSet(p) && k < |graph.order| && Turn(k, p, t, t, Rows()) && p.landings == landings
      requires forall i :: i in t.contrib ==> i < |graph.routes| && graph.routes[i].source != graph.order[k]
      modifies this`dsp, buffers, scratch
      ensures Turn(k, p, t, t', old(Rows()))
      ensures t'.contrib.Keys == t.contrib.Keys + Set(Outgoing(graph, graph.order[k], |graph.routes|))
    {
      t' := t;
      var out := graph.adj[graph.order[k]];
      ghost var rows := Rows();
      for j := 0 to |out|
        invariant Turn(k, p, t, t', rows)
        invariant t'.contrib.Keys == t.contrib.Keys + Set(out[..j])
      {
        NextIsNew(graph, graph.order[k], out, j, t.contrib.Keys, t'.contrib.Keys);
        t' := MixOne(k, out[j], landings, p, t, t', rows);
      }
      assert out[..|out|] == out;
    }

    /** One route of node k. */
    method MixOne(k: nat, i: nat, landings: seq<Landing<S>>,
                  ghost p: Setting<S>, ghost t0: Trace<S>, ghost t: Trace<S>, ghost rows: seq<seq<real>>)
      returns (ghost t': Trace<S>)
      requires Storage() && WellSet(p) && k < |graph.order| && Turn(k, p, t0, t, rows) && p.landings == landings
      requires i < |graph.routes| && ValidRoute(graph, i) && graph.routes[i].source == graph.order[k] && i !in t.contrib
      modifies this`dsp, buffers, scratch
      ensures Turn(k, p, t0, t', rows) && t'.contrib.Keys == t.contrib.Keys + {i}
    {
      RouteMixed(p, t0, t, Rows(), rows, k, i);
      t' := NextTrace(p, t, i);
      MixRoute(i, landings[i]);
    }

    /** The buffer of node n holds its value in the history. */
    ghost predicate Holds(t: Trace<S>, n: nat)
      requires Shaped(graph) && n < MAX_NODES && n < buffers.Length0
      reads this, buffers
    {
      frames * graph.widths[n] <= buffers.Length1 && n in t.val && Row(n)[..frames * graph.widths[n]] == t.val[n]
    }

    // ---------- One node ----------

    /** A node's own input. */
    method AddInput(n: nat, own: seq<real>)
      requires n < buffers.Length0 && |own| <= buffers.Length1
      modifies buffers
      ensures Rows() == old(Rows())[n := AddOwn(old(Row(n)), own)]
    {
      ghost var rows, row := Rows(), Row(n);
      AddOwnSilent(row, own[..0]);
      assert rows[n := row] == rows;
      for c := 0 to |own|
        invariant Rows() == rows[n := AddOwn(row, own[..c])]
      {
        AddOwnNext(row, own, c);
        assert Rows()[n] == AddOwn(row, own[..c]);
        AddToCell(n, c, own[c]);
      }
      assert own[..|own|] == own;
    }

    /** What a node of this kind sends out, and how the master stage moves on. */
    function Heard(kind: Kind, m: M, val: seq<real>): seq<real> {
      if kind.HardwarePlayback? then master(m, val).1 else val
    }

    function NextMaster(kind: Kind, m: M, val: seq<real>): M {
      if kind.HardwarePlayback? then master(m, val).0 else m
    }

    /** The end of a node's turn: hardware playback passes through the master stage, and playback
        nodes hand their block to their ring. */
    method Play(n: nat, ghost val: seq<real>)
      requires Storage() && Shaped(graph) && n < MAX_NODES && |val| == frames * graph.widths[n] <= buffers.Length1
      requires Row(n)[..|val|] == val
      modifies this`masterState, this`outputs, buffers
      ensures masterState == NextMaster(graph.kinds[n], old(masterState), val)
      ensures Row(n)[..|val|] == Heard(graph.kinds[n], old(masterState), val)
      ensures outputs == if graph.kinds[n].Sink() then old(outputs)[n := Heard(graph.kinds[n], old(masterState), val)] else old(outputs)
      ensures forall m :: 0 <= m < MAX_NODES && m != n ==> Row(m) == old(Row(m))
    {
      if graph.kinds[n].Sink() {
        var size := frames * graph.widths[n];
        var cells := seq(size, c requires 0 <= c < size reads buffers => buffers[n, c]);
        assert cells == val;
        if graph.kinds[n].HardwarePlayback? {
          assert |master(masterState, cells).1| == |cells|;
          ghost var rows := Rows();
          var (m, b) := master(masterState, cells);
          masterState := m;
          SetCells(n, b);
          assert Row(n) == Rows()[n];
          forall m | 0 <= m < MAX_NODES && m != n ensures Row(m) == old(Row(m)) {
            assert Rows()[m] == rows[m];
          }
          cells := b;
        }
        outputs := outputs[n := cells];
      }
    }

    /** The first k nodes are finished: they hold and sent out what they should, and exactly their
        routes have been mixed. */
    ghost predicate Finished(p: Setting<S>, t: Trace<S>, masters: seq<M>, k: nat)
      requires Storage() && WellSet(p) && Agrees(p, t) && k <= |graph.order|
      reads this, buffers
    {
      && Mixing(p, t, Rows(), k)
      && |masters| == k + 1 && masters[k] == masterState
      && (forall m :: k <= m < |graph.order| ==> graph.order[m] !in t.val)
      && MixedUpTo(t, k)
      && AllPlayed(t, masters, k) && OnlyPlayed(k)
    }

    /** Nothing but the playback nodes among the first k has been handed out. */
    ghost predicate OnlyPlayed(k: nat)
      requires Shaped(graph) && k <= |graph.order|
      reads this
    {
      forall n :: n in outputs ==> n < MAX_NODES && graph.kinds[n].Sink() && n in graph.order[..k]
    }

    ghost predicate AllPlayed(t: Trace<S>, masters: seq<M>, k: nat)
      requires Storage() && Valid() && k <= |graph.order| && k < |masters|
      reads this, buffers
    {
      forall m :: 0 <= m < k ==> Played(t, masters, m)
    }

    /** The m-th node ended with its value, through the master stage if it is hardware playback. */
    ghost predicate Played(t: Trace<S>, masters: seq<M>, m: nat)
      requires Storage() && Valid() && m < |graph.order| && m + 1 < |masters|
      reads this, buffers
    {
      var n := graph.order[m];
      && n in graph.order && n in t.val && frames * graph.widths[n] <= buffers.Length1
      && masters[m + 1] == NextMaster(graph.kinds[n], masters[m], t.val[n])
      && Row(n)[..frames * graph.widths[n]] == Heard(graph.kinds[n], masters[m], t.val[n])
      && (graph.kinds[n].Sink() ==> n in outputs && outputs[n] == Heard(graph.kinds[n], masters[m], t.val[n]))
    }

    /** What one node's output is: hardware playback hands out its value as the master stage changes
        it, client playback hands it out as it is, any other node hands out nothing. */
    ghost predicate HandedOut(t: Trace<S>, n: nat, m: M, m': M)
      requires Shaped(graph)
      reads this
    {
      && n < MAX_NODES && n in t.val
      && match graph.kinds[n]
         case HardwarePlayback => n in outputs && (m', outputs[n]) == master(m, t.val[n])
         case ClientPlayback => n in outputs && outputs[n] == t.val[n] && m' == m
         case _ => n !in outputs && m' == m
    }

    lemma PlayedIsHandedOut(p: Setting<S>, t: Trace<S>, masters: seq<M>, m: nat)
      requires Storage() && WellSet(p) && Agrees(p, t) && Finished(p, t, masters, |graph.order|) && m < |graph.order|
      ensures HandedOut(t, graph.order[m], masters[m], masters[m + 1])
    {
      assert Played(t, masters, m);
    }

    method Settle(k: nat, got: seq<seq<real>>, ghost p: Setting<S>, ghost t: Trace<S>) returns (ghost t': Trace<S>)
      requires Storage() && WellSet(p) && Agrees(p, t) && k < |graph.order| && Mixing(p, t, Rows(), k)
      requires |got| == MAX_NODES && p.own == OwnInputs(graph, frames, got)
      requires graph.order[k] in graph.order && graph.order[k] !in t.val
      modifies buffers
      ensures Agrees(p, t') && Mixing(p, t', Rows(), k + 1)
      ensures t' == t.(val := t'.val) && t'.val.Keys == t.val.Keys + {graph.order[k]}
      ensures forall n :: n in t.val ==> t'.val[n] == t.val[n]
      ensures Holds(t', graph.order[k])
      ensures forall m :: 0 <= m < MAX_NODES && m != graph.order[k] ==> Row(m) == old(Row(m))
    {
      var n := graph.order[k];
      RowFits(n);
      ghost var rows := Rows();
      ghost var row := AddOwn(Row(n), p.own[n]);
      NodeSettles(p, t, rows, k);
      t' := t.(val := t.val[n := row[..frames * graph.widths[n]]]);
      if graph.kinds[n].Source() {
        var io := OwnInput(got[n], frames * graph.widths[n]);
        AddInput(n, io);
      } else {
        AddOwnSilent(Row(n), p.own[n]);
        assert rows[n := Row(n)] == rows;
      }
      assert Rows() == rows[n := row];
      assert Row(n) == Rows()[n];
      ValuesStay(p, t, n, row[..frames * graph.widths[n]]);
      forall m | 0 <= m < MAX_NODES && m != n ensures Row(m) == old(Row(m)) {
        assert Rows()[m] == rows[m];
      }
    }

    /** Node k's turn up to its output: its input and its routes. */
    method MixInput(k: nat, got: seq<seq<real>>, landings: seq<Landing<S>>, ghost p: Setting<S>, ghost t: Trace<S>) returns (ghost t': Trace<S>)
      requires Storage() && WellSet(p) && Agrees(p, t) && k < |graph.order| && Mixing(p, t, Rows(), k)
      requires |got| == MAX_NODES && p.own == OwnInputs(graph, frames, got)
      requires graph.order[k] in graph.order && graph.order[k] !in t.val
      requires MixedUpTo(t, k) && p.landings == landings
      modifies this`dsp, buffers, scratch
      ensures Agrees(p, t') && Mixing(p, t', Rows(), k + 1) && MixedUpTo(t', k + 1) && t'.states[0] == t.states[0]
      ensures t'.val.Keys == t.val.Keys + {graph.order[k]} && forall n :: n in t.val ==> t'.val[n] == t.val[n]
      ensures Holds(t', graph.order[k])
      ensures forall m :: 0 <= m < k ==> graph.order[m] < MAX_NODES && Row(graph.order[m]) == old(Row(graph.order[m]))
    {
      t' := Settle(k, got, p, t);
      SourcesDiffer(t, k);
      t' := MixOutgoing(k, landings, p, t');
      MixedNext(t, t', k);
      forall m | 0 <= m < k ensures graph.order[m] != graph.order[k] {
        OrderDistinct(m, k);
      }
    }

    /** Exactly the valid routes that leave the first k nodes have been mixed. */
    ghost predicate MixedUpTo(t: Trace<S>, k: nat)
      requires Shaped(graph) && k <= |graph.order|
      reads this
    {
      forall i: nat :: i in t.contrib <==>
        i < |graph.routes| && ValidRoute(graph, i) && exists m :: 0 <= m < k && graph.routes[i].source == graph.order[m]
    }

    lemma MixedNext(t: Trace<S>, t': Trace<S>, k: nat)
      requires Shaped(graph) && k < |graph.order| && MixedUpTo(t, k)
      requires t'.contrib.Keys == t.contrib.Keys + Set(Outgoing(graph, graph.order[k], |graph.routes|))
      ensures MixedUpTo(t', k + 1)
    {
      var n := graph.order[k];
      OutgoingIs(graph, n, |graph.routes|);
      forall i: nat
        ensures i in t'.contrib <==>
          i < |graph.routes| && ValidRoute(graph, i) && exists m :: 0 <= m < k + 1 && graph.routes[i].source == graph.order[m]
      {
        assert i in t'.contrib.Keys <==> i in t.contrib.Keys || i in Outgoing(graph, n, |graph.routes|);
        if i < |graph.routes| && ValidRoute(graph, i) && graph.routes[i].source == n {
          assert i in t'.contrib;
        }
      }
    }

    /** Node k's output, after its routes have been mixed. */
    method PlayNode(k: nat, ghost p: Setting<S>, ghost t: Trace<S>, ghost masters: seq<M>) returns (ghost masters': seq<M>)
      requires Storage() && WellSet(p) && Agrees(p, t) && k < |graph.order| && Mixing(p, t, Rows(), k + 1) && MixedUpTo(t, k + 1)
      requires graph.order[k] in graph.order && Holds(t, graph.order[k])
      requires |masters| == k + 1 && masters[k] == masterState && AllPlayed(t, masters, k) && OnlyPlayed(k)
      requires forall m :: k < m < |graph.order| ==> graph.order[m] !in t.val
      modifies this`masterState, this`outputs, buffers
      ensures Agrees(p, t) && Finished(p, t, masters', k + 1) && masters'[0] == masters[0]
    {
      var n := graph.order[k];
      ghost var rows := Rows();
      Play(n, t.val[n]);
      masters' := masters + [masterState];
      assert Rows() == rows[n := Row(n)];
      MixingIgnoresPast(p, t, rows, k, n, Row(n));
      forall m | 0 <= m < k + 1 ensures Played(t, masters', m) {
        if m < k {
          assert old(Played(t, masters, m));
          OrderDistinct(m, k);
        }
      }
    }

    /** Node k's whole turn. */
    method MixNode(k: nat, got: seq<seq<real>>, landings: seq<Landing<S>>, ghost p: Setting<S>, ghost t: Trace<S>, ghost masters: seq<M>)
      returns (ghost t': Trace<S>, ghost masters': seq<M>)
      requires Storage() && WellSet(p) && Agrees(p, t) && k < |graph.order| && Finished(p, t, masters, k)
      requires |got| == MAX_NODES && p.own == OwnInputs(graph, frames, got) && p.landings == landings
      modifies this`dsp, this`masterState, this`outputs, buffers, scratch
      ensures Agrees(p, t') && Finished(p, t', masters', k + 1)
      ensures t'.states[0] == t.states[0] && masters'[0] == masters[0]
    {
      assert graph.order[k] in graph.order;
      t' := MixInput(k, got, landings, p, t);
      forall m | 0 <= m < k ensures Played(t', masters, m) {
        assert old(Played(t, masters, m));
      }
      forall m | k < m < |graph.order| ensures graph.order[m] !in t'.val {
        OrderDistinct(m, k);
      }
      masters' := PlayNode(k, p, t', masters);
    }

    lemma OrderDistinct(m: nat, k: nat)
      requires WellBuilt(graph) && m < |graph.order| && k < |graph.order| && m != k
      ensures graph.order[m] != graph.order[k]
    {
    }

    lemma SourcesDiffer(t: Trace<S>, k: nat)
      requires WellBuilt(graph) && k < |graph.order|
      requires forall i: nat :: i in t.contrib ==>
        i < |graph.routes| && exists m :: 0 <= m < k && graph.routes[i].source == graph.order[m]
      ensures forall i: nat :: i in t.contrib ==> i < |graph.routes| && graph.routes[i].source != graph.order[k]
    {
      forall i: nat | i in t.contrib ensures i < |graph.routes| && graph.routes[i].source != graph.order[k] {
        var m :| 0 <= m < k && graph.routes[i].source == graph.order[m];
        OrderDistinct(m, k);
      }
    }

    // ---------- One block ----------

    /** The buffers of the order hold silence. */
    ghost predicate Quiet()
      requires Storage() && Valid()
      reads this, buffers
    {
      forall n :: n in graph.order ==>
        n < MAX_NODES && frames * graph.widths[n] <= buffers.Length1 && Silent(Row(n)[..frames * graph.widths[n]])
    }

    /** Clearing the buffers of the ordered nodes. */
    method ClearBuffers()
      requires Storage() && Valid()
      modifies buffers
      ensures Quiet()
    {
      for k := 0 to |graph.order|
        invariant forall m :: 0 <= m < k ==>
          graph.order[m] < MAX_NODES && frames * graph.widths[graph.order[m]] <= buffers.Length1
          && Silent(Row(graph.order[m])[..frames * graph.widths[graph.order[m]]])
      {
        var n := graph.order[k];
        assert n in graph.order;
        RowFits(n);
        ghost var rows := Rows();
        SetCells(n, seq(frames * graph.widths[n], c => 0.0));
        assert Row(n) == Rows()[n];
        forall m | 0 <= m < MAX_NODES && m != n ensures Row(m) == rows[m] {
          assert Rows()[m] == rows[m];
        }
      }
    }

    /** One block. Every node of the order ends with the meaning of the graph at that node, hardware
        playback passes it through the master stage in the order of the nodes, playback nodes hand
        it out, every valid route that leaves the order is mixed exactly once, and each found its DSP
        slot as the routes before it and the publications up to then left it. */
    method ProcessAudio(got: seq<seq<real>>, landings: seq<Landing<S>>) returns (ghost t: Trace<S>, ghost masters: seq<M>)
      requires Storage() && Valid() && |got| == MAX_NODES && |landings| == |graph.routes|
      modifies this`dsp, this`masterState, this`outputs, buffers, scratch
      ensures Valid() && WellSet(SettingFor(got, landings)) && |t.slots| == |graph.routes|
      ensures var p := SettingFor(got, landings).(slots := t.slots);
        WellSet(p) && forall n :: n in graph.order ==> n in t.val && t.val[n] == Meaning(p, n)
      ensures |masters| == |graph.order| + 1 && masters[0] == old(masterState) && masters[|graph.order|] == masterState
      ensures forall m :: 0 <= m < |graph.order| ==> HandedOut(t, graph.order[m], masters[m], masters[m + 1])
      ensures forall n :: n in outputs ==> n in graph.order
      ensures Threaded(SettingFor(got, landings), t) && t.states[0] == old(dsp) && t.states[|t.acts|] == dsp
      ensures forall i: nat :: i in t.acts <==>
        i < |graph.routes| && ValidRoute(graph, i) && exists m :: 0 <= m < |graph.order| && graph.routes[i].source == graph.order[m]
    {
      ghost var p := SettingFor(got, landings);
      SettingIsWell(got, landings);
      ClearBuffers();
      outputs := map[];
      t := Trace(map[], map[], p.slots, [], [dsp]);
      masters := [masterState];
      MixingBegins(p, t, Rows());
      for k := 0 to |graph.order|
        invariant Storage() && Agrees(p, t) && Finished(p, t, masters, k)
        invariant t.states[0] == old(dsp) && masters[0] == old(masterState)
      {
        t, masters := MixNode(k, got, landings, p, t, masters);
      }
      forall m | 0 <= m < |graph.order| ensures HandedOut(t, graph.order[m], masters[m], masters[m + 1]) {
        PlayedIsHandedOut(p, t, masters, m);
      }
      ghost var q := p.(slots := t.slots);
      TraceSolves(p, t, masters);
      assert Solved(q, t);
      forall n | n in graph.order ensures n in t.val && t.val[n] == Meaning(q, n) {
        assert Settled(q, t, n);
        SolutionIsMeaning(q, t, n);
      }
    }

    /** A rebuild at the start of a block: new tables, and silence in the buffers of the new order. */
    method RebuildGraph(eps: seq<Endpoint>, routes: seq<AudioRoute>)
      requires Storage() && Valid() && DistinctEndpoints(eps)
      modifies this`graph, buffers
      ensures Valid() && Rebuilt(graph, eps, routes)
      ensures Quiet()
    {
      graph := Rebuild(eps, routes);
      ClearBuffers();
    }

    lemma TraceSolves(p: Setting<S>, t: Trace<S>, masters: seq<M>)
      requires Storage() && WellSet(p) && Agrees(p, t) && Finished(p, t, masters, |graph.order|)
      ensures var q := p.(slots := t.slots); WellSet(q) && Solved(q, t)
    {
      var q := p.(slots := t.slots);
      forall n | n in q.g.order ensures Settled(q, t, n) {
        var m := Index(q.g.order, n);
        assert Settled(p, t, graph.order[m]);
      }
      forall i | i in t.contrib ensures Brought(q, t, i) {
        assert Brought(p, t, i);
      }
      forall i | 0 <= i < |q.g.routes| && ValidRoute(q.g, i) && q.g.routes[i].source in q.g.order
        ensures i in t.contrib
      {
        var m := Index(q.g.order, q.g.routes[i].source);
        assert graph.routes[i].source == graph.order[m];
      }
    }
  }
}
