/** The argument adapter that makes dictionary arguments hashable before they
    reach the compile cache (engine/utils.py:67-83). Only the argument
    rewriting is modelled; the wrapped call is the caller's. */
module HashDict {

  /** A positional or keyword argument: a plain dict, a hashable dict (HDict,
      a subclass of dict with the same items) or any other value. */
  datatype PyArg<K, V> = Dict(items: map<K, V>) | HDict(items: map<K, V>) | Other(value: V)

  /** isinstance(arg, dict): true for dict and for its subclass HDict. */
  predicate IsDict<K, V>(a: PyArg<K, V>) {
    a.Dict? || a.HDict?
  }

  /** HDict(arg) if isinstance(arg, dict) else arg. */
  function Freeze<K, V>(a: PyArg<K, V>): (r: PyArg<K, V>)
    ensures IsDict(a) ==> r == HDict(a.items)
    ensures !IsDict(a) ==> r == a
  {
    if IsDict(a) then HDict(a.items) else a
  }

  /** The positional arguments, rewritten in order. */
  function HashDictArgs<K, V>(args: seq<PyArg<K, V>>): (r: seq<PyArg<K, V>>)
    ensures |r| == |args|
    ensures forall i :: 0 <= i < |args| && !IsDict(args[i]) ==> r[i] == args[i]
    ensures forall i :: 0 <= i < |args| && IsDict(args[i]) ==> r[i].HDict? && r[i].items == args[i].items
  {
    seq(|args|, i requires 0 <= i < |args| => Freeze(args[i]))
  }

  /** The keyword arguments, rewritten under the same names. */
  function HashDictKwargs<N, K, V>(kwargs: map<N, PyArg<K, V>>): (r: map<N, PyArg<K, V>>)
    ensures r.Keys == kwargs.Keys
    ensures forall n :: n in kwargs && !IsDict(kwargs[n]) ==> r[n] == kwargs[n]
    ensures forall n :: n in kwargs && IsDict(kwargs[n]) ==> r[n].HDict? && r[n].items == kwargs[n].items
  {
    map n | n in kwargs :: Freeze(kwargs[n])
  }

  /** Forgets hashability: an HDict reads back as the dict it was built from. */
  function Thaw<K, V>(a: PyArg<K, V>): PyArg<K, V> {
    if a.HDict? then Dict(a.items) else a
  }

  /** One argument: rewriting never leaves a plain dict, thawing undoes it
      for anything that was not already an HDict, and rewriting again
      changes nothing. */
  lemma FreezeRoundTrip<K, V>(a: PyArg<K, V>)
    ensures !Freeze(a).Dict?
    ensures !a.HDict? ==> Thaw(Freeze(a)) == a
    ensures Freeze(Freeze(a)) == Freeze(a)
  {
  }

  /** Rewriting loses nothing: for arguments holding no HDict yet, thawing
      the rewritten arguments gives the originals back. */
  lemma HashDictArgsThaw<K, V>(args: seq<PyArg<K, V>>)
    requires forall i :: 0 <= i < |args| ==> !args[i].HDict?
    ensures seq(|args|, i requires 0 <= i < |args| => Thaw(HashDictArgs(args)[i])) == args
  {
  }

  /** Rewriting twice is rewriting once, so a wrapper applied to already
      hashable arguments changes nothing. */
  lemma HashDictArgsIdempotent<K, V>(args: seq<PyArg<K, V>>)
    ensures HashDictArgs(HashDictArgs(args)) == HashDictArgs(args)
  {
  }
}
