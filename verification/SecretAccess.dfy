/**
 The memoizing secret backend: layers of caches over the keyring, one inside the
 other. Whatever is cached, and whenever caching is switched on, an operation through
 all the layers answers and does exactly what the bare keyring would.
 */
module SecretAccess {
  import opened Records

  /** `probe`: a service of the write test, which is never cached. */
  datatype Key = Key(service: nat, account: nat, probe: bool)

  type Value = nat

  type Keyring = map<Key, Value>

  function Held(plain: Keyring, k: Key): Option<Value> {
    if k in plain then Some(plain[k]) else None
  }

  datatype Layer = Layer(entries: map<Key, Option<Value>>, enabled: bool)

  /** A failed operation had no effect. */
  datatype Answer = Found(value: Option<Value>) | Finished | Conflict | Failed

  predicate LayerCoherent(plain: Keyring, l: Layer) {
    forall k :: k in l.entries ==> !k.probe && l.entries[k] == Held(plain, k)
  }

  /** Every cached entry is what the keyring holds. */
  predicate Coherent(plain: Keyring, layers: seq<Layer>) {
    forall i :: 0 <= i < |layers| ==> LayerCoherent(plain, layers[i])
  }

  function Remember(l: Layer, k: Key, value: Option<Value>): Layer {
    if k.probe then l else l.(entries := l.entries[k := value])
  }

  /** Every layer from the ith inward remembers the value. */
  predicate Remembered(before: seq<Layer>, after: seq<Layer>, i: nat, k: Key, value: Option<Value>) {
    && |after| == |before|
    && (forall j :: 0 <= j < |before| ==> after[j] == if j < i then before[j] else Remember(before[j], k, value))
  }

  lemma RememberedIsCoherent(plain: Keyring, plain': Keyring, before: seq<Layer>, after: seq<Layer>, k: Key,
                             value: Option<Value>)
    requires Coherent(plain, before) && Remembered(before, after, 0, k, value)
    requires Held(plain', k) == value && forall x :: x != k ==> Held(plain', x) == Held(plain, x)
    ensures Coherent(plain', after)
  {
    forall j | 0 <= j < |after|
      ensures LayerCoherent(plain', after[j])
    {
      assert after[j] == Remember(before[j], k, value) && LayerCoherent(plain, before[j]);
    }
  }

  /** The keyring's next answer is not a failure. */
  predicate NextWorks(script: seq<bool>) { script != [] && script[0] }

  function Rest(script: seq<bool>): seq<bool> { if script == [] then [] else script[1..] }

  /** Some caching layer from the ith inward answers for the keyring. */
  predicate CachedFrom(layers: seq<Layer>, i: nat, k: Key) {
    !k.probe && exists j :: i <= j < |layers| && layers[j].enabled && k in layers[j].entries
  }

  class SecretStack {
    const reliable: bool
    var plain: Keyring
    /** Outermost first; the keyring is behind the last one. */
    var layers: seq<Layer>
    var script: seq<bool>

    constructor (plain: Keyring, reliable: bool, script: seq<bool>)
      ensures this.plain == plain && layers == [] && this.reliable == reliable
    {
      this.plain, this.script, layers := plain, script, [];
      this.reliable := reliable;
    }

    method Works() returns (ok: bool)
      modifies this`script
      ensures ok <==> reliable || NextWorks(old(script))
      ensures script == Rest(old(script))
    {
      ok := reliable || (script != [] && script[0]);
      if script != [] {
        script := script[1..];
      }
    }

    /** Wraps what is there in one more layer, not caching yet. */
    method Stage()
      requires Coherent(plain, layers)
      modifies this`layers
      ensures Coherent(plain, layers) && layers == [Layer(map[], false)] + old(layers)
    {
      layers := [Layer(map[], false)] + layers;
    }

    method EnableCache(i: nat)
      requires i < |layers| && Coherent(plain, layers)
      modifies this`layers
      ensures Coherent(plain, layers) && layers == old(layers)[i := old(layers)[i].(enabled := true)]
    {
      layers := layers[i := layers[i].(enabled := true)];
    }

    method ReadKeyring(k: Key) returns (r: Answer)
      modifies this`script
      ensures r == Found(Held(plain, k)) || r == Failed
      ensures script == Rest(old(script)) && (r == Failed <==> !reliable && !NextWorks(old(script)))
    {
      var ok := Works();
      return if ok then Found(if k in plain then Some(plain[k]) else None) else Failed;
    }

    /** Entered at layer i; a cached key is answered without the keyring. */
    method Get(i: nat, k: Key) returns (r: Answer)
      requires i <= |layers| && Coherent(plain, layers)
      modifies this`layers, this`script
      ensures Coherent(plain, layers) && |layers| == |old(layers)|
      ensures forall j :: 0 <= j < |layers| ==> layers[j].enabled == old(layers)[j].enabled
      ensures r == Found(Held(plain, k)) || r == Failed
      ensures CachedFrom(old(layers), i, k) ==> r != Failed && script == old(script)
      ensures !CachedFrom(old(layers), i, k) ==>
        script == Rest(old(script)) && (r == Failed <==> !reliable && !NextWorks(old(script)))
      ensures i < |layers| && !k.probe && r != Failed ==> k in layers[i].entries
      ensures forall j, x :: 0 <= j < |layers| && x in old(layers)[j].entries ==> x in layers[j].entries
      decreases |layers| - i
    {
      if i == |layers| {
        r := ReadKeyring(k);
        return;
      }
      if !k.probe && layers[i].enabled && k in layers[i].entries {
        assert LayerCoherent(plain, layers[i]);
        return Found(layers[i].entries[k]);
      }
      assert LayerCoherent(plain, layers[i]);
      r := Get(i + 1, k);
      if r.Failed? {
        return;
      }
      assert LayerCoherent(plain, layers[i]);
      layers := layers[i := Remember(layers[i], k, r.value)];
    }

    method Set(i: nat, k: Key, v: Value) returns (r: Answer)
      requires i <= |layers|
      modifies this
      ensures r == Failed <==> !reliable && !NextWorks(old(script))
      ensures r == Failed ==> plain == old(plain) && layers == old(layers)
      ensures r != Failed ==>
        r == Finished && plain == old(plain)[k := v] && Remembered(old(layers), layers, i, k, Some(v))
      decreases |layers| - i
    {
      if i == |layers| {
        var ok := Works();
        if !ok {
          return Failed;
        }
        plain := plain[k := v];
        return Finished;
      }
      r := Set(i + 1, k, v);
      if r == Failed {
        return;
      }
      layers := layers[i := Remember(layers[i], k, Some(v))];
    }

    method Delete(i: nat, k: Key) returns (r: Answer)
      requires i <= |layers|
      modifies this
      ensures r == Failed <==> !reliable && !NextWorks(old(script))
      ensures r == Failed ==> plain == old(plain) && layers == old(layers)
      ensures r != Failed ==> r == Finished && plain == old(plain) - {k} && Remembered(old(layers), layers, i, k, None)
      decreases |layers| - i
    {
      if i == |layers| {
        var ok := Works();
        if !ok {
          return Failed;
        }
        plain := plain - {k};
        return Finished;
      }
      r := Delete(i + 1, k);
      if r == Failed {
        return;
      }
      layers := layers[i := Remember(layers[i], k, None)];
    }

    method MarkDeleted(i: nat, k: Key)
      requires i <= |layers| && !k.probe
      modifies this`layers
      ensures Remembered(old(layers), layers, i, k, None)
    {
      var j := i;
      while j < |layers|
        invariant i <= j <= |layers| && |layers| == |old(layers)|
        invariant forall x :: 0 <= x < |layers| ==>
          layers[x] == if i <= x < j then Remember(old(layers)[x], k, None) else old(layers)[x]
      {
        layers := layers[j := Remember(layers[j], k, None)];
        j := j + 1;
      }
    }

    /** Reads past every cache, and deletes only the very value expected; an absent one is done. */
    method DeleteExact(i: nat, k: Key, expected: Value) returns (r: Answer)
      requires i <= |layers| && !k.probe
      modifies this
      ensures r != Finished ==> plain == old(plain) && layers == old(layers)
      ensures r == Conflict ==> Held(plain, k).Some? && Held(plain, k) != Some(expected)
      ensures r == Finished ==>
        && Held(old(plain), k) in {None, Some(expected)}
        && plain == old(plain) - {k} && Remembered(old(layers), layers, i, k, None)
      ensures r in {Finished, Conflict, Failed}
      ensures r == Failed <==>
        && !reliable
        && (NextWorks(old(script)) ==>
              Held(old(plain), k) in {None, Some(expected)} && !NextWorks(Rest(old(script))))
    {
      var actual := ReadKeyring(k);
      if actual.Failed? {
        return Failed;
      }
      if actual.value.Some? && actual.value.value != expected {
        return Conflict;
      }
      var ok := Works();
      if !ok {
        return Failed;
      }
      plain := plain - {k};
      MarkDeleted(i, k);
      return Finished;
    }
  }

  /** What was read once through a caching layer is answered without the keyring from then on. */
  method GetTwice(s: SecretStack, k: Key) returns (first: Answer, second: Answer)
    requires Coherent(s.plain, s.layers) && s.layers != [] && s.layers[0].enabled && !k.probe
    modifies s`layers, s`script
    ensures Coherent(s.plain, s.layers)
    ensures first != Failed ==> second == first == Found(Held(s.plain, k))
  {
    first := s.Get(0, k);
    second := s.Get(0, k);
  }

  // ----- Whole sequences of operations -----

  datatype Op =
    | DoGet(key: Key) | DoSet(key: Key, value: Value) | DoDelete(key: Key) | DoDeleteExact(key: Key, value: Value)
    | DoStage | DoEnable(layer: nat)

  /** What the bare keyring answers. */
  function PlainAnswer(plain: Keyring, op: Op): Answer {
    match op
    case DoGet(k) => Found(Held(plain, k))
    case DoDeleteExact(k, v) => if Held(plain, k) in {None, Some(v)} then Finished else Conflict
    case _ => Finished
  }

  function PlainNext(plain: Keyring, op: Op): Keyring {
    match op
    case DoSet(k, v) => plain[k := v]
    case DoDelete(k) => plain - {k}
    case DoDeleteExact(k, v) => if Held(plain, k) in {None, Some(v)} then plain - {k} else plain
    case _ => plain
  }

  /** The bare keyring after the operations that did not fail. */
  function PlainAfter(plain: Keyring, ops: seq<Op>, answers: seq<Answer>): Keyring
    requires |ops| == |answers|
  {
    if ops == [] then plain
    else
      var before := PlainAfter(plain, ops[..|ops| - 1], answers[..|ops| - 1]);
      if answers[|ops| - 1] == Failed then before else PlainNext(before, ops[|ops| - 1])
  }

  method Perform(s: SecretStack, op: Op) returns (r: Answer)
    requires Coherent(s.plain, s.layers)
    requires op.DoDeleteExact? ==> !op.key.probe
    modifies s
    ensures Coherent(s.plain, s.layers)
    ensures r == Failed || r == PlainAnswer(old(s.plain), op)
    ensures s.reliable ==> r != Failed
    ensures s.plain == if r == Failed then old(s.plain) else PlainNext(old(s.plain), op)
    ensures op.DoStage? ==> s.layers == [Layer(map[], false)] + old(s.layers)
    ensures op.DoEnable? && op.layer < |old(s.layers)| ==>
      s.layers == old(s.layers)[op.layer := old(s.layers)[op.layer].(enabled := true)]
  {
    ghost var plain, layers := s.plain, s.layers;
    match op
    case DoGet(k) =>
      r := s.Get(0, k);
    case DoSet(k, v) =>
      r := s.Set(0, k, v);
      if r != Failed {
        RememberedIsCoherent(plain, s.plain, layers, s.layers, k, Some(v));
      }
    case DoDelete(k) =>
      r := s.Delete(0, k);
      if r != Failed {
        RememberedIsCoherent(plain, s.plain, layers, s.layers, k, None);
      }
    case DoDeleteExact(k, v) =>
      r := s.DeleteExact(0, k, v);
      if r == Finished {
        RememberedIsCoherent(plain, s.plain, layers, s.layers, k, None);
      }
    case DoStage =>
      s.Stage();
      r := Finished;
    case DoEnable(i) =>
      if i < |s.layers| {
        s.EnableCache(i);
      }
      r := Finished;
  }

  /** Every answer so far is a failure or what the bare keyring would answer in its place. */
  predicate AnswersLikeKeyring(plain: Keyring, ops: seq<Op>, answers: seq<Answer>)
    requires |answers| <= |ops|
  {
    forall i :: 0 <= i < |answers| ==>
      answers[i] in {Failed, PlainAnswer(PlainAfter(plain, ops[..i], answers[..i]), ops[i])}
  }

  lemma NoAnswers(plain: Keyring, ops: seq<Op>)
    ensures AnswersLikeKeyring(plain, ops, []) && PlainAfter(plain, ops[..0], []) == plain
  {
  }

  lemma OneMoreAnswer(plain: Keyring, ops: seq<Op>, answers: seq<Answer>, r: Answer)
    requires |answers| < |ops| && AnswersLikeKeyring(plain, ops, answers)
    requires var before := PlainAfter(plain, ops[..|answers|], answers);
      r in {Failed, PlainAnswer(before, ops[|answers|])}
    ensures AnswersLikeKeyring(plain, ops, answers + [r])
    ensures var before := PlainAfter(plain, ops[..|answers|], answers);
      PlainAfter(plain, ops[..|answers + [r]|], answers + [r]) ==
        if r == Failed then before else PlainNext(before, ops[|answers|])
  {
    hide PlainAnswer, PlainNext;
    var n, more := |answers|, answers + [r];
    assert ops[..n + 1][..n] == ops[..n] && more[..n] == answers;
    assert forall i :: 0 <= i < n ==> more[..i] == answers[..i];
  }

  /** The stack refines the keyring: same answers, same effects, whatever the layers remember. */
  method RunAll(s: SecretStack, ops: seq<Op>) returns (answers: seq<Answer>)
    requires Coherent(s.plain, s.layers)
    requires forall op :: op in ops && op.DoDeleteExact? ==> !op.key.probe
    modifies s
    ensures |answers| == |ops| && s.plain == PlainAfter(old(s.plain), ops, answers)
    ensures s.reliable ==> Failed !in answers
    ensures AnswersLikeKeyring(old(s.plain), ops, answers)
  {
    hide PlainAfter, AnswersLikeKeyring, Coherent, PlainAnswer, PlainNext;
    answers := [];
    NoAnswers(s.plain, ops);
    while |answers| < |ops|
      invariant |answers| <= |ops| && Coherent(s.plain, s.layers) && (s.reliable ==> Failed !in answers)
      invariant s.plain == PlainAfter(old(s.plain), ops[..|answers|], answers)
      invariant AnswersLikeKeyring(old(s.plain), ops, answers)
    {
      var r := Perform(s, ops[|answers|]);
      OneMoreAnswer(old(s.plain), ops, answers, r);
      answers := answers + [r];
    }
    assert ops[..|ops|] == ops;
  }

  /**
   A write that enters at an inner layer is seen by every outer one exactly when none
   of them remembers something else: the outermost handle is the one to write through.
   */
  lemma InnerWriteExactly(plain: Keyring, before: seq<Layer>, after: seq<Layer>, i: nat, k: Key, v: Value)
    requires Coherent(plain, before) && Remembered(before, after, i, k, Some(v)) && i <= |before|
    ensures Coherent(plain[k := v], after) <==>
      forall j :: 0 <= j < i && k in before[j].entries ==> before[j].entries[k] == Some(v)
  {
    if forall j :: 0 <= j < i && k in before[j].entries ==> before[j].entries[k] == Some(v) {
      forall j | 0 <= j < |after|
        ensures LayerCoherent(plain[k := v], after[j])
      {
        assert LayerCoherent(plain, before[j]);
      }
    } else {
      var j :| 0 <= j < i && k in before[j].entries && before[j].entries[k] != Some(v);
      assert after[j] == before[j] && !LayerCoherent(plain[k := v], after[j]);
    }
  }
}
