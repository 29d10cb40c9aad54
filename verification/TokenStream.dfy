/**
 The tokens of a micro-batch from the numeric pieces of the network alone: what a layer hands to the next one, what is
 cached, and what is sampled, without the records that the engine keeps.
*/
module TokenStream {
  import opened Basics
  import opened Network

  /** Between two layers: hidden states, residual, and the caches of the layers so far. */
  datatype Activations<V> = Activations(hidden: Option<V>, residual: Option<V>, caches: seq<V>)

  /** The first `n` layers of prefill on the prompt `x`. */
  function Prefilled<V>(net: Net<V>, z: Sizes, n: nat, x: V): (a: Activations<V>)
    ensures |a.caches| == n && (n > 0 ==> a.hidden.Some?)
  {
    if n == 0 then Activations(None, None, [])
    else
      var a := Prefilled(net, z, n - 1, x);
      var (hidden, residual, cache) := net.prefill(n - 1, TrueRows(z, n - 1), x, a.hidden, a.residual);
      Activations(Some(hidden), Some(residual), a.caches + [cache])
  }

  /** The first `n` layers of a decode step on token `x`: projection, attention, experts. */
  function Decoded<V>(net: Net<V>, z: Sizes, n: nat, x: V, lens: seq<nat>, caches: seq<V>): (a: Activations<V>)
    requires n <= |caches|
    ensures |a.caches| == n && (n > 0 ==> a.hidden.Some?)
  {
    if n == 0 then Activations(None, None, [])
    else
      var i := n - 1;
      var a := Decoded(net, z, i, x, lens, caches);
      var (q, residual) := net.pre(i, x, lens, a.hidden, a.residual);
      var (attention, cache) := net.attn(i, lens, q, caches[i]);
      var (hidden, residual1) := net.post(i, TrueRows(z, i), Some(attention), Some(residual));
      Activations(Some(hidden), Some(residual1), a.caches + [cache])
  }

  function Longer(lens: seq<nat>, t: nat): (r: seq<nat>)
    ensures |r| == |lens| && forall i :: 0 <= i < |lens| ==> r[i] == lens[i] + t
  {
    seq(|lens|, i requires 0 <= i < |lens| => lens[i] + t)
  }

  /** Tokens and caches of micro-batch `k` after prefill of `x` and `t` decode steps. */
  function Generated<V>(net: Net<V>, z: Sizes, k: nat, x: V, lens: seq<nat>, t: nat): (r: (seq<V>, seq<V>))
    requires z.layers > 0
    ensures |r.0| == t + 1 && |r.1| == z.layers
  {
    if t == 0 then
      var a := Prefilled(net, z, z.layers, x);
      ([net.sample(k, 0, a.hidden.value)], a.caches)
    else
      var (tokens, caches) := Generated(net, z, k, x, lens, t - 1);
      var a := Decoded(net, z, z.layers, tokens[t - 1], Longer(lens, t), caches);
      (tokens + [net.sample(k, t, a.hidden.value)], a.caches)
  }

  // ---------------------------------------------------------------------- layer-by-layer execution does this

  /** The record of a micro-batch after `n` layers of a pass that began with `b`. */
  ghost predicate Carries<V(!new)>(net: Net<V>, z: Sizes, k: nat, n: nat, b: MicroBatch<V>, a: Activations<V>,
                                   before: seq<V>, r: MicroBatch<V>)
    requires n <= z.layers == |b.kv| && |a.caches| == n && (n > 0 ==> a.hidden.Some?)
  {
    && r.input == b.input && r.seqLens == b.seqLens && r.hiddenCpu == b.hiddenCpu && r.kv == a.caches + b.kv[n..]
    && if n < z.layers then r.hidden == a.hidden && r.residual == a.residual && (n > 0 ==> a.residual.Some?)
       else n > 0 ==> r.hidden == r.residual == None && r.outputs == before + [net.sample(k, |before|, a.hidden.value)]
  }

  lemma {:induction false} PrefillCarries<V(!new)>(net: Net<V>, z: Sizes, k: nat, n: nat, b: MicroBatch<V>)
    requires n <= z.layers == |b.kv| && z.layers > 0 && b.hidden == b.residual == None
    ensures Carries(net, z, k, n, b, Prefilled(net, z, n, b.input), [], PrefillLayers(net, z, k, n, b))
  {
    if n > 0 {
      PrefillCarries(net, z, k, n - 1, b);
      var r := PrefillLayers(net, z, k, n - 1, b);
      var a := Prefilled(net, z, n, b.input);
      assert r.kv[n - 1 := a.caches[n - 1]] == a.caches + b.kv[n..];
    }
  }

  lemma {:induction false} DecodeCarries<V(!new)>(net: Net<V>, z: Sizes, k: nat, n: nat, b: MicroBatch<V>)
    requires n <= z.layers == |b.kv| && z.layers > 0 && b.hidden == b.residual == None
    ensures var r := DecodeLayers(net, z, k, n, b);
            && Carries(net, z, k, n, b, Decoded(net, z, n, b.input, b.seqLens, b.kv), b.outputs, r)
            && (n < z.layers ==> r.outputs == b.outputs)
  {
    if n > 0 {
      DecodeCarries(net, z, k, n - 1, b);
      var r := DecodeLayers(net, z, k, n - 1, b);
      var a := Decoded(net, z, n, b.input, b.seqLens, b.kv);
      assert r.kv[n - 1] == b.kv[n - 1];
      assert r.kv[n - 1 := a.caches[n - 1]] == a.caches + b.kv[n..];
    }
  }

  /** One decode step from a record between two steps. */
  lemma StepGenerates<V(!new)>(net: Net<V>, z: Sizes, k: nat, c: MicroBatch<V>, lens: seq<nat>)
    requires z.layers == |c.kv| && z.layers > 0 && c.hidden == c.residual == None && c.outputs != []
    requires lens == Longer(c.seqLens, 1)
    ensures var r := DecodeStep(net, z, k, c);
            var a := Decoded(net, z, z.layers, c.outputs[|c.outputs| - 1], lens, c.kv);
            && r.outputs == c.outputs + [net.sample(k, |c.outputs|, a.hidden.value)] && r.kv == a.caches
            && r.hidden == r.residual == None
  {
    assert NextInput(c).seqLens == lens;
    DecodeCarries(net, z, k, z.layers, NextInput(c));
  }

  lemma OneLonger(lens: seq<nat>, t: nat)
    ensures Longer(Longer(lens, t), 1) == Longer(lens, t + 1)
  {
  }

  /** Layer-by-layer execution produces exactly these tokens and caches. */
  lemma {:induction false} ServeGenerates<V(!new)>(net: Net<V>, z: Sizes, k: nat, t: nat, b: MicroBatch<V>)
    requires z.layers == |b.kv| && z.layers > 0 && b.hidden == b.residual == None
    ensures var r := Serve(net, z, k, t, b);
            && r.outputs == Generated(net, z, k, b.input, b.seqLens, t).0
            && r.kv == Generated(net, z, k, b.input, b.seqLens, t).1 && r.hidden == r.residual == None
  {
    if t == 0 {
      PrefillCarries(net, z, k, z.layers, b);
    } else {
      ServeGenerates(net, z, k, t - 1, b);
      var c := Serve(net, z, k, t - 1, b);
      assert c.seqLens == Longer(b.seqLens, t - 1) by {
        Advances(net, z, k, true, t - 1, b);
      }
      OneLonger(b.seqLens, t - 1);
      StepGenerates(net, z, k, c, Longer(b.seqLens, t));
    }
  }
}
