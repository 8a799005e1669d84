/** How `applyWatermark` turns the callbacks of its ffmpeg command into events on
    the tool, tagged with the tool's id, and into the settlement of the promise
    it returns. */
module Settlement {
  import opened JsValues

  /** A callback fired by the ffmpeg command. */
  datatype FfmpegEvent =
    | Started(commandLine: string)
    | Progressed(progress: JsValue)
    | Failed(err: JsValue)
    | Ended

  /** An event the tool emits: name, the tool's id, and the payload. */
  datatype Signal =
    | StartSignal(id: string, commandLine: string)
    | ProgressSignal(id: string, progress: JsValue)
    | ErrorSignal(id: string, err: JsValue)
    | EndSignal(id: string, outputPath: string)

  /** The state of the promise `applyWatermark` returns. */
  datatype Promise = Pending | Resolved(path: string) | Rejected(err: JsValue)

  /** The event the tool emits for one ffmpeg callback; `end` carries the output path. */
  function Forward(id: string, outputPath: string, e: FfmpegEvent): (s: Signal)
    ensures s.id == id
    ensures e.Started? <==> s.StartSignal?
    ensures e.Started? ==> s.commandLine == e.commandLine
    ensures e.Progressed? <==> s.ProgressSignal?
    ensures e.Progressed? ==> s.progress == e.progress
    ensures e.Failed? <==> s.ErrorSignal?
    ensures e.Failed? ==> s.err == e.err
    ensures e.Ended? <==> s.EndSignal?
    ensures e.Ended? ==> s.outputPath == outputPath
  {
    match e
    case Started(c) => StartSignal(id, c)
    case Progressed(p) => ProgressSignal(id, p)
    case Failed(err) => ErrorSignal(id, err)
    case Ended => EndSignal(id, outputPath)
  }

  /** One callback as the tool receives it, with whether the tool had an
      `'error'` listener at that moment. `VideoTool` is a Node `EventEmitter`:
      `emit('error', ...)` with no `'error'` listener throws instead of
      delivering, so the error callback stops before its `reject(err)`. */
  datatype Delivery = Delivery(event: FfmpegEvent, errorListened: bool)

  /** The callback settles a pending promise: an `end`, or an `error` whose
      `emit` did not throw. */
  predicate Decides(d: Delivery) {
    d.event.Ended? || (d.event.Failed? && d.errorListened)
  }

  /** The callback's `emit` delivers its event instead of throwing. */
  predicate Emits(d: Delivery) {
    !d.event.Failed? || d.errorListened
  }

  /** The effect of one callback on the promise: `reject(err)` on an error
      whose `emit` returned, `resolve(outputPath)` on end; a promise that has
      settled ignores both. */
  function Settle(p: Promise, outputPath: string, d: Delivery): (q: Promise)
    ensures !p.Pending? ==> q == p
    ensures !Decides(d) ==> q == p
    ensures p.Pending? && d.event.Ended? ==> q == Resolved(outputPath)
    ensures p.Pending? && d.event.Failed? && d.errorListened ==> q == Rejected(d.event.err)
  {
    if !p.Pending? then p
    else match d.event
      case Failed(err) => if d.errorListened then Rejected(err) else p
      case Ended => Resolved(outputPath)
      case _ => p
  }

  /** The promise after a sequence of callbacks. */
  function SettleAll(p: Promise, outputPath: string, ds: seq<Delivery>): Promise
    decreases |ds|
  {
    if ds == [] then p
    else Settle(SettleAll(p, outputPath, ds[..|ds| - 1]), outputPath, ds[|ds| - 1])
  }

  /** The events the tool emits for a sequence of callbacks; an error whose
      `emit` throws emits nothing. */
  function ForwardAll(id: string, outputPath: string, ds: seq<Delivery>): seq<Signal>
    decreases |ds|
  {
    if ds == [] then []
    else
      var last := ds[|ds| - 1];
      ForwardAll(id, outputPath, ds[..|ds| - 1])
        + (if Emits(last) then [Forward(id, outputPath, last.event)] else [])
  }

  /** The callbacks whose `emit` delivers, in order. */
  function Emitting(ds: seq<Delivery>): (r: seq<Delivery>)
    ensures |r| <= |ds|
    ensures forall i :: 0 <= i < |r| ==> Emits(r[i])
    ensures forall d :: d in r <==> d in ds && Emits(d)
    decreases |ds|
  {
    if ds == [] then []
    else Emitting(ds[..|ds| - 1]) + (if Emits(ds[|ds| - 1]) then [ds[|ds| - 1]] else [])
  }

  // ---------------------------------------------------------------------------
  // Properties

  lemma SettleAllSnoc(p: Promise, outputPath: string, ds: seq<Delivery>, d: Delivery)
    ensures SettleAll(p, outputPath, ds + [d]) == Settle(SettleAll(p, outputPath, ds), outputPath, d)
  {
    assert (ds + [d])[..|ds|] == ds;
  }

  lemma ForwardAllSnoc(id: string, outputPath: string, ds: seq<Delivery>, d: Delivery)
    ensures ForwardAll(id, outputPath, ds + [d])
         == ForwardAll(id, outputPath, ds) + (if Emits(d) then [Forward(id, outputPath, d.event)] else [])
  {
    assert (ds + [d])[..|ds|] == ds;
  }

  lemma EmittingSnoc(ds: seq<Delivery>, d: Delivery)
    ensures Emitting(ds + [d]) == Emitting(ds) + (if Emits(d) then [d] else [])
  {
    assert (ds + [d])[..|ds|] == ds;
  }

  /** A settled promise never changes again. */
  lemma {:induction false} SettledStays(p: Promise, outputPath: string, ds: seq<Delivery>)
    requires !p.Pending?
    ensures SettleAll(p, outputPath, ds) == p
    decreases |ds|
  {
    if ds != [] {
      SettledStays(p, outputPath, ds[..|ds| - 1]);
    }
  }

  /** The promise stays pending exactly as long as no callback has decided it:
      no `end`, and no `error` fired while the tool had an `'error'` listener. */
  lemma {:induction false} PendingUntilTerminal(outputPath: string, ds: seq<Delivery>)
    ensures SettleAll(Pending, outputPath, ds) == Pending
        <==> forall i :: 0 <= i < |ds| ==> !Decides(ds[i])
    decreases |ds|
  {
    if ds != [] {
      var init := ds[..|ds| - 1];
      PendingUntilTerminal(outputPath, init);
      if SettleAll(Pending, outputPath, ds) == Pending {
        assert SettleAll(Pending, outputPath, init) == Pending;
        forall i | 0 <= i < |ds| ensures !Decides(ds[i]) {
          if i < |init| { assert ds[i] == init[i]; }
        }
      } else if SettleAll(Pending, outputPath, init) != Pending {
        var j :| 0 <= j < |init| && Decides(init[j]);
        assert ds[j] == init[j];
      } else {
        assert Decides(ds[|ds| - 1]);
      }
    }
  }

  /** The first deciding callback settles the promise: an `error` (which
      decides only when the tool has an `'error'` listener) rejects with that
      error, an `end` resolves with the output path; later callbacks change
      nothing. */
  lemma {:induction false} FirstTerminalWins(outputPath: string, ds: seq<Delivery>, i: nat)
    requires i < |ds| && Decides(ds[i])
    requires forall j :: 0 <= j < i ==> !Decides(ds[j])
    ensures ds[i].event.Failed? ==> SettleAll(Pending, outputPath, ds) == Rejected(ds[i].event.err)
    ensures ds[i].event.Ended? ==> SettleAll(Pending, outputPath, ds) == Resolved(outputPath)
    decreases |ds|
  {
    var init := ds[..|ds| - 1];
    if i == |ds| - 1 {
      PendingUntilTerminal(outputPath, init);
      assert forall j :: 0 <= j < |init| ==> !Decides(init[j]) by {
        forall j | 0 <= j < |init| ensures !Decides(init[j]) { assert init[j] == ds[j]; }
      }
    } else {
      assert init[i] == ds[i];
      assert forall j :: 0 <= j < i ==> !Decides(init[j]) by {
        forall j | 0 <= j < i ensures !Decides(init[j]) { assert init[j] == ds[j]; }
      }
      FirstTerminalWins(outputPath, init, i);
    }
  }

  /** An `error` whose `emit` throws has no effect on the promise: the
      promise is what the other callbacks alone make it. */
  lemma {:induction false} UnlistenedErrorsIgnored(p: Promise, outputPath: string, ds: seq<Delivery>)
    ensures SettleAll(p, outputPath, ds) == SettleAll(p, outputPath, Emitting(ds))
    decreases |ds|
  {
    if ds != [] {
      var init := ds[..|ds| - 1];
      var d := ds[|ds| - 1];
      assert ds == init + [d];
      UnlistenedErrorsIgnored(p, outputPath, init);
      SettleAllSnoc(p, outputPath, init, d);
      EmittingSnoc(init, d);
      if Emits(d) {
        SettleAllSnoc(p, outputPath, Emitting(init), d);
      } else {
        assert Emitting(ds) == Emitting(init);
        assert !Decides(d);
      }
    }
  }

  /** Every callback whose `emit` delivers is forwarded, in order, tagged
      with the tool's id, even after the promise has settled. */
  lemma {:induction false} ForwardAllTagged(id: string, outputPath: string, ds: seq<Delivery>)
    ensures |ForwardAll(id, outputPath, ds)| == |Emitting(ds)|
    ensures forall i :: 0 <= i < |Emitting(ds)| ==>
      ForwardAll(id, outputPath, ds)[i] == Forward(id, outputPath, Emitting(ds)[i].event)
    decreases |ds|
  {
    if ds != [] {
      var init := ds[..|ds| - 1];
      ForwardAllTagged(id, outputPath, init);
    }
  }

  /** With an `'error'` listener on the tool throughout, every callback is
      delivered. */
  lemma {:induction false} ListenedEmitsAll(ds: seq<Delivery>)
    requires forall i :: 0 <= i < |ds| ==> ds[i].errorListened
    ensures Emitting(ds) == ds
    decreases |ds|
  {
    if ds != [] {
      var init := ds[..|ds| - 1];
      assert forall i :: 0 <= i < |init| ==> init[i].errorListened by {
        forall i | 0 <= i < |init| ensures init[i].errorListened { assert init[i] == ds[i]; }
      }
      ListenedEmitsAll(init);
      assert ds == init + [ds[|ds| - 1]];
    }
  }

  /** The success case of the jest file: the saved path is what `end` carries
      and what the promise resolves to, whatever listeners the tool has. */
  lemma EndCase(id: string, outputPath: string, commandLine: string, l1: bool, l2: bool)
    ensures var ds := [Delivery(Started(commandLine), l1), Delivery(Ended, l2)];
      && SettleAll(Pending, outputPath, ds) == Resolved(outputPath)
      && ForwardAll(id, outputPath, ds) == [StartSignal(id, commandLine), EndSignal(id, outputPath)]
  {
    var first := [Delivery(Started(commandLine), l1)];
    assert [] + first == first;
    assert first + [Delivery(Ended, l2)] == [Delivery(Started(commandLine), l1), Delivery(Ended, l2)];
    SettleAllSnoc(Pending, outputPath, [], first[0]);
    SettleAllSnoc(Pending, outputPath, first, Delivery(Ended, l2));
    ForwardAllSnoc(id, outputPath, [], first[0]);
    ForwardAllSnoc(id, outputPath, first, Delivery(Ended, l2));
  }

  /** The failure case of the jest file, whose tool has an `'error'` listener:
      error rejects with the same value and a later end does not change the
      outcome. */
  lemma ErrorThenEndCase(outputPath: string, err: JsValue)
    ensures SettleAll(Pending, outputPath, [Delivery(Failed(err), true), Delivery(Ended, true)]) == Rejected(err)
  {
    var first := [Delivery(Failed(err), true)];
    assert [] + first == first;
    assert first + [Delivery(Ended, true)] == [Delivery(Failed(err), true), Delivery(Ended, true)];
    SettleAllSnoc(Pending, outputPath, [], first[0]);
    SettleAllSnoc(Pending, outputPath, first, Delivery(Ended, true));
  }

  /** On a tool without an `'error'` listener an error leaves the promise
      pending and emits nothing; a later end resolves it. */
  lemma UnlistenedErrorCase(id: string, outputPath: string, err: JsValue)
    ensures SettleAll(Pending, outputPath, [Delivery(Failed(err), false)]) == Pending
    ensures ForwardAll(id, outputPath, [Delivery(Failed(err), false)]) == []
    ensures SettleAll(Pending, outputPath, [Delivery(Failed(err), false), Delivery(Ended, false)])
         == Resolved(outputPath)
  {
    var first := [Delivery(Failed(err), false)];
    assert [] + first == first;
    assert first + [Delivery(Ended, false)] == [Delivery(Failed(err), false), Delivery(Ended, false)];
    SettleAllSnoc(Pending, outputPath, [], first[0]);
    SettleAllSnoc(Pending, outputPath, first, Delivery(Ended, false));
    ForwardAllSnoc(id, outputPath, [], first[0]);
  }
}
