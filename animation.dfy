/**
 * The per-view animation exclusivity protocol of the `UIView` extension. Every view keeps
 * the set of animation keys that are in flight on it (`animationsMap`). A context whose key
 * is held is re-submitted after a short delay; otherwise its key is inserted and the
 * framework animation starts; when the framework reports completion, the caller's
 * completion runs first and the key is removed afterwards.
 *
 * The protocol is stated twice: as pure transitions over a `ViewState` value, about which
 * the lemmas speak, and as the class `View`, whose methods update the view's fields in
 * place and are proved to perform exactly those transitions.
 */
module Animation {

  import opened Optional

  type Key = string

  /** `UIView.AnimationOptions`, an option set, as the set of the bits it holds. */
  type AnimationOptions = set<nat>

  /** `UIView.KeyframeAnimationOptions`, likewise. */
  type KeyframeAnimationOptions = set<nat>

  /** The identity of a caller-supplied closure: the animations block or a completion handler. */
  type Closure = nat

  /**
   * `AnimationContext` and its subclass `KeyFrameAnimationContext`: the key, the timing,
   * the options, the effect and the optional completion of one animation request.
   */
  datatype AnimationContext =
    | Plain(animationKey: Key, duration: real, delay: real, options: AnimationOptions,
            animations: Closure, completion: Option<Closure>)
    | KeyFrame(animationKey: Key, duration: real, delay: real,
               animations: Closure, completion: Option<Closure>, keyFrameOptions: KeyframeAnimationOptions)
  {
    /** The inherited `options`: a keyframe context always passes the empty set to its superclass. */
    function BaseOptions(): (o: AnimationOptions)
      ensures KeyFrame? ==> o == {}
      ensures Plain? ==> o == options
    {
      match this
      case Plain(_, _, _, options, _, _) => options
      case KeyFrame(_, _, _, _, _, _) => {}
    }
  }

  /** A context built by the subclass's initializer. */
  type KeyFrameAnimationContext = c: AnimationContext | c.KeyFrame?
    witness KeyFrame("", 0.0, 0.0, 0, None, {})

  /** `KeyFrameAnimationContext.init`: the keyframe options are kept apart and the base options emptied. */
  function MakeKeyFrameAnimationContext(animationKey: Key, duration: real, delay: real,
                                        options: KeyframeAnimationOptions, animations: Closure,
                                        completion: Option<Closure>): (c: KeyFrameAnimationContext)
    ensures c.animationKey == animationKey && c.duration == duration && c.delay == delay
    ensures c.animations == animations && c.completion == completion
    ensures c.keyFrameOptions == options && c.BaseOptions() == {}
  {
    KeyFrame(animationKey, duration, delay, animations, completion, options)
  }

  /** The framework primitive an animation is started with, with the arguments it receives. */
  datatype FrameworkCall =
    | UIViewAnimate(duration: real, delay: real, options: AnimationOptions, animations: Closure)
    | UIViewAnimateKeyframes(duration: real, delay: real, keyframeOptions: KeyframeAnimationOptions,
                             animations: Closure)

  /** A context together with the entry point it was submitted through. */
  datatype Submission =
    | ViaAnimate(context: AnimationContext)
    | ViaAnimateKeyframes(keyFrameContext: KeyFrameAnimationContext)
  {
    function Context(): (c: AnimationContext)
      ensures ViaAnimateKeyframes? ==> c.KeyFrame?
    {
      match this
      case ViaAnimate(c) => c
      case ViaAnimateKeyframes(c) => c
    }

    function AnimationKey(): (k: Key)
    {
      Context().animationKey
    }

    /**
     * What `animateSynchronized` or `animateKeyframesSynchronized` hands to the framework:
     * the primitive of the entry point, with the context's timing and effect, and its base
     * options or its keyframe options.
     */
    function Call(): (call: FrameworkCall)
      ensures call.UIViewAnimate? <==> ViaAnimate?
      ensures call.duration == Context().duration && call.delay == Context().delay
      ensures call.animations == Context().animations
      ensures call.UIViewAnimate? ==> call.options == Context().BaseOptions()
      ensures call.UIViewAnimateKeyframes? ==> call.keyframeOptions == Context().keyFrameOptions
    {
      match this
      case ViaAnimate(c) => UIViewAnimate(c.duration, c.delay, c.BaseOptions(), c.animations)
      case ViaAnimateKeyframes(c) => UIViewAnimateKeyframes(c.duration, c.delay, c.keyFrameOptions, c.animations)
    }
  }

  /** What the outside world observes of a view's animations, in order. */
  datatype Event =
    | Started(key: Key, call: FrameworkCall)
      /** The caller's completion ran with the framework's flag while `held` were the view's keys. */
    | CompletionCalled(handler: Closure, finished: bool, held: set<Key>)

  /**
   * The animation state of one view: the held keys, the animations in flight, the index of
   * the one whose completion is running (if any), the contexts waiting for a retry, and the
   * event log.
   */
  datatype ViewState = ViewState(animationsMap: set<Key>, inFlight: seq<Submission>, completing: Option<nat>,
                                 pending: seq<Submission>, log: seq<Event>)

  function RemoveAt<T>(s: seq<T>, i: nat): (r: seq<T>)
    requires i < |s|
    ensures |r| == |s| - 1
    ensures forall j :: 0 <= j < i ==> r[j] == s[j]
    ensures forall j :: i <= j < |r| ==> r[j] == s[j + 1]
  {
    s[..i] + s[i + 1..]
  }

  /** The keys of a collection of submissions. */
  function KeysOf(running: seq<Submission>): (keys: set<Key>)
    ensures forall i :: 0 <= i < |running| ==> running[i].AnimationKey() in keys
    ensures forall k :: k in keys ==> exists i :: 0 <= i < |running| && running[i].AnimationKey() == k
  {
    if running == [] then {}
    else
      var rest := KeysOf(running[1..]);
      assert forall k :: k in rest ==> exists i :: 0 <= i < |running| && running[i].AnimationKey() == k by {
        forall k | k in rest ensures exists i :: 0 <= i < |running| && running[i].AnimationKey() == k {
          var j :| 0 <= j < |running[1..]| && running[1..][j].AnimationKey() == k;
          assert running[j + 1].AnimationKey() == k;
        }
      }
      {running[0].AnimationKey()} + rest
  }

  /** No two submissions in the collection share a key. */
  ghost predicate DistinctKeys(running: seq<Submission>)
  {
    forall i, j ::
      (0 <= i < |running| && 0 <= j < |running| && running[i].AnimationKey() == running[j].AnimationKey()) ==> i == j
  }

  /**
   * The protocol's invariant: a key is held exactly when an animation with that key is in
   * flight, no two in-flight animations share a key, and a running completion belongs to
   * one of them.
   */
  ghost predicate ValidState(st: ViewState)
  {
    st.animationsMap == KeysOf(st.inFlight) &&
    DistinctKeys(st.inFlight) &&
    (st.completing.Some? ==> st.completing.value < |st.inFlight|)
  }

  /** A view that has never animated: no associated set, which reads as the empty set. */
  function Fresh(): (st: ViewState)
    ensures st.animationsMap == {} && st.inFlight == [] && st.pending == []
  {
    ViewState({}, [], None, [], [])
  }

  /** `animateSynchronized` / `animateKeyframesSynchronized`: insert the key, start the animation. */
  function Synchronized(st: ViewState, s: Submission): (r: ViewState)
    ensures s.AnimationKey() in r.animationsMap && st.animationsMap <= r.animationsMap
    ensures st.animationsMap == KeysOf(st.inFlight) ==> r.animationsMap == KeysOf(r.inFlight)
    ensures r.pending == st.pending && r.completing == st.completing
    ensures |r.log| == |st.log| + 1 && r.log[..|st.log|] == st.log
    ensures r.log[|st.log|].Started? && r.log[|st.log|].call == s.Call()
  {
    KeysOfAppend(st.inFlight, s);
    st.(animationsMap := st.animationsMap + {s.AnimationKey()},
        inFlight := st.inFlight + [s],
        log := st.log + [Started(s.AnimationKey(), s.Call())])
  }

  /**
   * `animate(context:)` / `animateKeyframes(context:)`: a held key sends the same
   * submission to wait for a retry; a free key starts it.
   */
  function Submitted(st: ViewState, s: Submission): (r: ViewState)
    ensures r.animationsMap == st.animationsMap + {s.AnimationKey()}
    ensures r.inFlight == st.inFlight + [s] <==> s.AnimationKey() !in st.animationsMap
    ensures r.pending == st.pending + [s] <==> s.AnimationKey() in st.animationsMap
    ensures |r.inFlight| + |r.pending| == |st.inFlight| + |st.pending| + 1
    ensures r.completing == st.completing
  {
    if s.AnimationKey() in st.animationsMap then st.(pending := st.pending + [s])
    else Synchronized(st, s)
  }

  /** The retry timer of the `i`th waiting submission fires: it is taken out and submitted again. */
  function Retried(st: ViewState, i: nat): (r: ViewState)
    requires i < |st.pending|
    ensures |r.inFlight| + |r.pending| == |st.inFlight| + |st.pending|
    ensures r.animationsMap == st.animationsMap + {st.pending[i].AnimationKey()}
    ensures r.inFlight == st.inFlight + [st.pending[i]] <==> st.pending[i].AnimationKey() !in st.animationsMap
    ensures r.completing == st.completing
  {
    Submitted(st.(pending := RemoveAt(st.pending, i)), st.pending[i])
  }

  /** The caller's completion, if any, called with the framework's flag while `held` are the keys. */
  function CompletionEvents(s: Submission, finished: bool, held: set<Key>): (events: seq<Event>)
  {
    match s.Context().completion
    case None => []
    case Some(h) => [CompletionCalled(h, finished, held)]
  }

  /**
   * The framework reports that the `i`th in-flight animation ended: the caller's completion
   * runs; the key stays held until that completion returns.
   */
  function Completed(st: ViewState, i: nat, finished: bool): (r: ViewState)
    requires i < |st.inFlight| && st.completing.None?
    ensures r.animationsMap == st.animationsMap && r.inFlight == st.inFlight && r.pending == st.pending
    ensures r.completing == Some(i)
    ensures st.animationsMap == KeysOf(st.inFlight) ==> st.inFlight[i].AnimationKey() in r.animationsMap
    ensures |st.log| <= |r.log| && r.log[..|st.log|] == st.log
    ensures |r.log| == |st.log| + 1 <==> st.inFlight[i].Context().completion.Some?
    ensures |r.log| == |st.log| + 1 ==>
      r.log[|st.log|] == CompletionCalled(st.inFlight[i].Context().completion.value, finished, st.animationsMap)
  {
    st.(completing := Some(i), log := st.log + CompletionEvents(st.inFlight[i], finished, st.animationsMap))
  }

  /** The caller's completion returned: the key is removed and the animation is over. */
  function CompletionReturned(st: ViewState): (r: ViewState)
    requires st.completing.Some? && st.completing.value < |st.inFlight|
    ensures r.animationsMap == st.animationsMap - {st.inFlight[st.completing.value].AnimationKey()}
    ensures multiset(r.inFlight) + multiset{st.inFlight[st.completing.value]} == multiset(st.inFlight)
    ensures ValidState(st) ==> r.animationsMap == KeysOf(r.inFlight)
    ensures r.completing.None? && r.pending == st.pending && r.log == st.log
  {
    var i := st.completing.value;
    assert st.inFlight == st.inFlight[..i] + [st.inFlight[i]] + st.inFlight[i + 1..];
    assert ValidState(st) ==> KeysOf(RemoveAt(st.inFlight, i)) == st.animationsMap - {st.inFlight[i].AnimationKey()} by {
      if ValidState(st) { KeysOfRemoveAt(st.inFlight, i); }
    }
    st.(animationsMap := st.animationsMap - {st.inFlight[i].AnimationKey()},
        inFlight := RemoveAt(st.inFlight, i),
        completing := None)
  }

  // ---------------------------------------------------------------------------
  // The invariant holds initially and is kept by every transition.

  lemma FreshIsValid()
    ensures ValidState(Fresh())
  {
  }

  /** A key outside `KeysOf` belongs to none of the submissions. */
  lemma NotInKeysOf(running: seq<Submission>, k: Key)
    requires k !in KeysOf(running)
    ensures forall i :: 0 <= i < |running| ==> running[i].AnimationKey() != k
  {
  }

  lemma {:induction false} KeysOfAppend(running: seq<Submission>, s: Submission)
    ensures KeysOf(running + [s]) == KeysOf(running) + {s.AnimationKey()}
  {
    var both := running + [s];
    forall k | k in KeysOf(both) ensures k in KeysOf(running) + {s.AnimationKey()} {
      var i :| 0 <= i < |both| && both[i].AnimationKey() == k;
      if i < |running| { assert running[i] == both[i]; }
    }
    forall k | k in KeysOf(running) ensures k in KeysOf(both) {
      var i :| 0 <= i < |running| && running[i].AnimationKey() == k;
      assert both[i] == running[i];
    }
    assert both[|running|] == s;
  }

  /** Removing one of several distinctly keyed submissions removes exactly its key. */
  lemma {:induction false} KeysOfRemoveAt(running: seq<Submission>, i: nat)
    requires i < |running| && DistinctKeys(running)
    ensures KeysOf(RemoveAt(running, i)) == KeysOf(running) - {running[i].AnimationKey()}
    ensures DistinctKeys(RemoveAt(running, i))
  {
    var rest := RemoveAt(running, i);
    var gone := running[i].AnimationKey();
    forall k | k in KeysOf(rest) ensures k in KeysOf(running) - {gone} {
      var j :| 0 <= j < |rest| && rest[j].AnimationKey() == k;
      var m := if j < i then j else j + 1;
      assert running[m] == rest[j];
      assert m != i;
    }
    forall k | k in KeysOf(running) - {gone} ensures k in KeysOf(rest) {
      var m :| 0 <= m < |running| && running[m].AnimationKey() == k;
      assert m != i;
      var j := if m < i then m else m - 1;
      assert rest[j] == running[m];
    }
    forall a, b | 0 <= a < |rest| && 0 <= b < |rest| && rest[a].AnimationKey() == rest[b].AnimationKey()
      ensures a == b
    {
      var ma := if a < i then a else a + 1;
      var mb := if b < i then b else b + 1;
      assert running[ma] == rest[a] && running[mb] == rest[b];
    }
  }

  lemma SynchronizedKeepsValid(st: ViewState, s: Submission)
    requires ValidState(st) && s.AnimationKey() !in st.animationsMap
    ensures ValidState(Synchronized(st, s))
  {
    KeysOfAppend(st.inFlight, s);
    NotInKeysOf(st.inFlight, s.AnimationKey());
    var running := st.inFlight + [s];
    assert forall a :: 0 <= a < |st.inFlight| ==> running[a] == st.inFlight[a];
    assert running[|st.inFlight|] == s;
  }

  lemma SubmittedKeepsValid(st: ViewState, s: Submission)
    requires ValidState(st)
    ensures ValidState(Submitted(st, s))
  {
    if s.AnimationKey() !in st.animationsMap {
      SynchronizedKeepsValid(st, s);
    }
  }

  lemma RetriedKeepsValid(st: ViewState, i: nat)
    requires ValidState(st) && i < |st.pending|
    ensures ValidState(Retried(st, i))
  {
    SubmittedKeepsValid(st.(pending := RemoveAt(st.pending, i)), st.pending[i]);
  }

  lemma CompletedKeepsValid(st: ViewState, i: nat, finished: bool)
    requires ValidState(st) && i < |st.inFlight| && st.completing.None?
    ensures ValidState(Completed(st, i, finished))
  {
  }

  lemma CompletionReturnedKeepsValid(st: ViewState)
    requires ValidState(st) && st.completing.Some?
    ensures ValidState(CompletionReturned(st))
  {
    KeysOfRemoveAt(st.inFlight, st.completing.value);
  }

  // ---------------------------------------------------------------------------
  // What one step does.

  /** The invariant restated: a key is held exactly when an animation with that key is in flight. */
  lemma HeldIffInFlight(st: ViewState, k: Key)
    requires ValidState(st)
    ensures k in st.animationsMap <==> exists i :: 0 <= i < |st.inFlight| && st.inFlight[i].AnimationKey() == k
  {
  }

  /** A held key: nothing held or running changes and nothing is started; the same submission waits. */
  lemma HeldKeyDefers(st: ViewState, s: Submission)
    requires s.AnimationKey() in st.animationsMap
    ensures var r := Submitted(st, s);
      r.animationsMap == st.animationsMap && r.inFlight == st.inFlight && r.completing == st.completing &&
      r.log == st.log && r.pending == st.pending + [s]
  {
  }

  /**
   * A free key: exactly that key is inserted and one animation starts, carrying the
   * context's duration, delay, effect and, by entry point, its options or keyframe options.
   */
  lemma FreeKeyStarts(st: ViewState, s: Submission)
    requires s.AnimationKey() !in st.animationsMap
    ensures var r := Submitted(st, s);
      r.animationsMap - st.animationsMap == {s.AnimationKey()} && st.animationsMap <= r.animationsMap &&
      r.inFlight == st.inFlight + [s] && r.pending == st.pending && r.completing == st.completing &&
      r.log == st.log + [Started(s.AnimationKey(), s.Call())]
    ensures s.ViaAnimate? ==>
      s.Call() == UIViewAnimate(s.context.duration, s.context.delay, s.context.BaseOptions(), s.context.animations)
    ensures s.ViaAnimateKeyframes? ==>
      s.Call() == UIViewAnimateKeyframes(s.keyFrameContext.duration, s.keyFrameContext.delay,
                                         s.keyFrameContext.keyFrameOptions, s.keyFrameContext.animations) &&
      s.keyFrameContext.BaseOptions() == {}
  {
  }

  /**
   * Blocking is per key: a submission starts exactly when no in-flight animation has its
   * key, whatever other keys are held.
   */
  lemma StartsIffKeyNotInFlight(st: ViewState, s: Submission)
    requires ValidState(st)
    ensures Submitted(st, s).inFlight == st.inFlight + [s] <==>
            forall i :: 0 <= i < |st.inFlight| ==> st.inFlight[i].AnimationKey() != s.AnimationKey()
  {
    if s.AnimationKey() in st.animationsMap {
      assert |Submitted(st, s).inFlight| != |st.inFlight + [s]|;
    } else {
      NotInKeysOf(st.inFlight, s.AnimationKey());
    }
  }

  /** Both entry points follow the same protocol: they defer or start on the same condition. */
  lemma EntryPointsAgree(st: ViewState, c: KeyFrameAnimationContext)
    ensures Submitted(st, ViaAnimate(c)).animationsMap == Submitted(st, ViaAnimateKeyframes(c)).animationsMap
    ensures |Submitted(st, ViaAnimate(c)).inFlight| == |Submitted(st, ViaAnimateKeyframes(c)).inFlight|
    ensures |Submitted(st, ViaAnimate(c)).pending| == |Submitted(st, ViaAnimateKeyframes(c)).pending|
  {
  }

  /** On a fresh view the first submission always starts at once. */
  lemma FirstSubmissionStarts(s: Submission)
    ensures Submitted(Fresh(), s).inFlight == [s]
    ensures Submitted(Fresh(), s).animationsMap == {s.AnimationKey()}
  {
  }

  /**
   * While the caller's completion runs, the animation's key is still held, and the
   * completion receives the framework's `finished` flag unchanged.
   */
  lemma CompletionSeesKeyHeld(st: ViewState, i: nat, finished: bool)
    requires ValidState(st) && i < |st.inFlight| && st.completing.None?
    ensures var r := Completed(st, i, finished);
      r.animationsMap == st.animationsMap && st.inFlight[i].AnimationKey() in r.animationsMap &&
      r.inFlight == st.inFlight && r.pending == st.pending
    ensures st.inFlight[i].Context().completion.Some? ==>
      Completed(st, i, finished).log ==
        st.log + [CompletionCalled(st.inFlight[i].Context().completion.value, finished, st.animationsMap)] &&
      st.inFlight[i].AnimationKey() in st.animationsMap
    ensures st.inFlight[i].Context().completion.None? ==> Completed(st, i, finished).log == st.log
  {
  }

  /**
   * A completion that animates the same key again, before it returns, finds the key held:
   * the new submission waits and nothing starts.
   */
  lemma ReentrantSameKeyWaits(st: ViewState, i: nat, finished: bool, s: Submission)
    requires ValidState(st) && i < |st.inFlight| && st.completing.None?
    requires s.AnimationKey() == st.inFlight[i].AnimationKey()
    ensures var c := Completed(st, i, finished);
      Submitted(c, s).inFlight == c.inFlight && Submitted(c, s).pending == c.pending + [s]
  {
  }

  /**
   * Once the completion returns, the key is no longer held, no animation with it is in
   * flight, and no other key's membership changed.
   */
  lemma ReturnReleasesOnlyItsKey(st: ViewState)
    requires ValidState(st) && st.completing.Some?
    ensures var key := st.inFlight[st.completing.value].AnimationKey();
      var r := CompletionReturned(st);
      key !in r.animationsMap &&
      (forall k :: k != key ==> (k in r.animationsMap <==> k in st.animationsMap)) &&
      (forall j :: 0 <= j < |r.inFlight| ==> r.inFlight[j].AnimationKey() != key) &&
      r.pending == st.pending && r.log == st.log
  {
    var key := st.inFlight[st.completing.value].AnimationKey();
    KeysOfRemoveAt(st.inFlight, st.completing.value);
    CompletionReturnedKeepsValid(st);
    NotInKeysOf(CompletionReturned(st).inFlight, key);
  }

  // ---------------------------------------------------------------------------
  // Every run of the protocol from a fresh view.

  /** One thing that can happen to a view: a call, a retry timer, a framework completion, a return. */
  datatype Step =
    | Submit(submission: Submission)
    | Retry(index: nat)
    | Complete(index: nat, finished: bool)
    | Return

  /** The transition of a step; a step that cannot happen in `st` leaves it unchanged. */
  function Apply(st: ViewState, step: Step): (r: ViewState)
  {
    match step
    case Submit(s) => Submitted(st, s)
    case Retry(i) => if i < |st.pending| then Retried(st, i) else st
    case Complete(i, finished) =>
      if i < |st.inFlight| && st.completing.None? then Completed(st, i, finished) else st
    case Return =>
      if st.completing.Some? && st.completing.value < |st.inFlight| then CompletionReturned(st) else st
  }

  function Run(st: ViewState, steps: seq<Step>): (r: ViewState)
    decreases |steps|
  {
    if steps == [] then st else Run(Apply(st, steps[0]), steps[1..])
  }

  lemma ApplyKeepsValid(st: ViewState, step: Step)
    requires ValidState(st)
    ensures ValidState(Apply(st, step))
  {
    match step
    case Submit(s) => SubmittedKeepsValid(st, s);
    case Retry(i) => if i < |st.pending| { RetriedKeepsValid(st, i); }
    case Complete(i, finished) => if i < |st.inFlight| && st.completing.None? { CompletedKeepsValid(st, i, finished); }
    case Return => if st.completing.Some? { CompletionReturnedKeepsValid(st); }
  }

  lemma {:induction false} RunKeepsValid(st: ViewState, steps: seq<Step>)
    requires ValidState(st)
    ensures ValidState(Run(st, steps))
    decreases |steps|
  {
    if steps != [] {
      ApplyKeepsValid(st, steps[0]);
      RunKeepsValid(Apply(st, steps[0]), steps[1..]);
    }
  }

  /**
   * Exclusivity: after any sequence of calls, retries and completions on a fresh view, the
   * held keys are the keys in flight and no two in-flight animations share a key.
   */
  lemma {:induction false} Exclusive(steps: seq<Step>)
    ensures var st := Run(Fresh(), steps);
      st.animationsMap == KeysOf(st.inFlight) &&
      forall i, j :: 0 <= i < j < |st.inFlight| ==> st.inFlight[i].AnimationKey() != st.inFlight[j].AnimationKey()
  {
    FreshIsValid();
    RunKeepsValid(Fresh(), steps);
  }

  // ---------------------------------------------------------------------------
  // The view itself, updated in place.

  /** The animation state a `UIView` carries through its associated object. */
  class View {
    var animationsMap: set<Key>
    var inFlight: seq<Submission>
    var completing: Option<nat>
    var pending: seq<Submission>
    var log: seq<Event>

    function State(): ViewState
      reads this
    {
      ViewState(animationsMap, inFlight, completing, pending, log)
    }

    ghost predicate Valid()
      reads this
    {
      ValidState(State())
    }

    /** A view with nothing attached behaves as one with the empty set of keys. */
    constructor ()
      ensures Valid() && State() == Fresh()
    {
      animationsMap, inFlight, completing, pending, log := {}, [], None, [], [];
    }

    /** `animationsMap.contains(_:)`: whether an animation with `key` is in flight on this view. */
    method Contains(key: Key) returns (held: bool)
      requires Valid()
      ensures held <==> exists i :: 0 <= i < |inFlight| && inFlight[i].AnimationKey() == key
    {
      held := key in animationsMap;
    }

    /** `animate(context:)`. */
    method Animate(context: AnimationContext)
      requires Valid()
      modifies this
      ensures Valid() && State() == Submitted(old(State()), ViaAnimate(context))
    {
      if context.animationKey in animationsMap {
        // perform(_:with:afterDelay:) hands the same context back 0.1 seconds later
        pending := pending + [ViaAnimate(context)];
        SubmittedKeepsValid(old(State()), ViaAnimate(context));
        return;
      }
      AnimateSynchronized(context);
    }

    /** `animateKeyframes(context:)`. */
    method AnimateKeyframes(context: KeyFrameAnimationContext)
      requires Valid()
      modifies this
      ensures Valid() && State() == Submitted(old(State()), ViaAnimateKeyframes(context))
    {
      if context.animationKey in animationsMap {
        pending := pending + [ViaAnimateKeyframes(context)];
        SubmittedKeepsValid(old(State()), ViaAnimateKeyframes(context));
        return;
      }
      AnimateKeyframesSynchronized(context);
    }

    /** `animateSynchronized(context:)`: insert the key and start `UIView.animate`. */
    method AnimateSynchronized(context: AnimationContext)
      requires Valid() && context.animationKey !in animationsMap
      modifies this
      ensures Valid() && State() == Synchronized(old(State()), ViaAnimate(context))
    {
      var s := ViaAnimate(context);
      SynchronizedKeepsValid(State(), s);
      animationsMap := animationsMap + {context.animationKey};
      inFlight := inFlight + [s];
      log := log + [Started(context.animationKey, UIViewAnimate(context.duration, context.delay,
                                                                context.BaseOptions(), context.animations))];
    }

    /** `animateKeyframesSynchronized(context:)`: insert the key and start `UIView.animateKeyframes`. */
    method AnimateKeyframesSynchronized(context: KeyFrameAnimationContext)
      requires Valid() && context.animationKey !in animationsMap
      modifies this
      ensures Valid() && State() == Synchronized(old(State()), ViaAnimateKeyframes(context))
    {
      var s := ViaAnimateKeyframes(context);
      SynchronizedKeepsValid(State(), s);
      animationsMap := animationsMap + {context.animationKey};
      inFlight := inFlight + [s];
      log := log + [Started(context.animationKey, UIViewAnimateKeyframes(context.duration, context.delay,
                                                                         context.keyFrameOptions,
                                                                         context.animations))];
    }

    /** The retry timer of the `i`th waiting context fires; any waiting context may be first. */
    method Retry(i: nat)
      requires Valid() && i < |pending|
      modifies this
      ensures Valid() && State() == Retried(old(State()), i)
    {
      var s := pending[i];
      pending := RemoveAt(pending, i);
      match s
      case ViaAnimate(c) => Animate(c);
      case ViaAnimateKeyframes(c) => AnimateKeyframes(c);
    }

    /** The framework ends the `i`th animation: the caller's completion gets `finished`. */
    method Complete(i: nat, finished: bool)
      requires Valid() && i < |inFlight| && completing.None?
      modifies this
      ensures Valid() && State() == Completed(old(State()), i, finished)
    {
      match inFlight[i].Context().completion {
        case Some(h) => log := log + [CompletionCalled(h, finished, animationsMap)];
        case None =>
      }
      completing := Some(i);
    }

    /** The caller's completion returned: remove the key. */
    method CompletionReturn()
      requires Valid() && completing.Some?
      modifies this
      ensures Valid() && State() == CompletionReturned(old(State()))
    {
      CompletionReturnedKeepsValid(State());
      var i := completing.value;
      animationsMap := animationsMap - {inFlight[i].AnimationKey()};
      inFlight := RemoveAt(inFlight, i);
      completing := None;
    }
  }
}
