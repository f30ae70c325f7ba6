/** The listener table `_events`: an event or method name mapped to the ordered list
    of listeners added for it. Names are the property keys the table is indexed by. */
module Events {
  import opened Json
  import opened Trace

  type Table = map<string, seq<Listener>>

  /** The table never keeps a name whose list has become empty. */
  ghost predicate NoEmptyLists(t: Table)
  {
    forall name | name in t :: t[name] != []
  }

  /** The listeners runEvent finds for a name: none for an undefined or unmapped name. */
  function Lookup(t: Table, name: Option<string>): seq<Listener>
  {
    if name.Some? && name.value in t then t[name.value] else []
  }

  /** addEventListener: appends to the name's list, duplicates kept, other names untouched. */
  function Add(t: Table, name: string, l: Listener): (r: Table)
    ensures Lookup(r, Some(name)) == Lookup(t, Some(name)) + [l]
    ensures forall k | k != name :: Lookup(r, Some(k)) == Lookup(t, Some(k))
    ensures r.Keys == t.Keys + {name}
    ensures NoEmptyLists(t) ==> NoEmptyLists(r)
  {
    t[name := Lookup(t, Some(name)) + [l]]
  }

  /** Array.prototype.indexOf: the first position holding x, or -1. */
  function IndexOf(s: seq<Listener>, x: Listener): (i: int)
    ensures -1 <= i < |s|
    ensures i == -1 <==> x !in s
    ensures 0 <= i ==> s[i] == x && x !in s[..i]
  {
    if s == [] then -1
    else if s[0] == x then 0
    else
      var j := IndexOf(s[1..], x);
      assert j >= 0 ==> s[..j + 1] == [s[0]] + s[1..][..j];
      if j < 0 then -1 else j + 1
  }

  /** removeEventListener: splices out the first equal listener and deletes the name
      once its list is empty; a no-op for an unknown name or listener. */
  function Remove(t: Table, name: string, l: Listener): (r: Table)
    ensures l !in Lookup(t, Some(name)) ==> r == t
    ensures l in Lookup(t, Some(name)) ==>
      var s := Lookup(t, Some(name));
      var i := IndexOf(s, l);
      Lookup(r, Some(name)) == s[..i] + s[i + 1..]
    ensures forall k | k != name :: Lookup(r, Some(k)) == Lookup(t, Some(k))
    ensures r.Keys <= t.Keys
    ensures NoEmptyLists(t) ==> NoEmptyLists(r)
  {
    if name !in t then t
    else
      var i := IndexOf(t[name], l);
      if i < 0 then t
      else
        var rest := t[name][..i] + t[name][i + 1..];
        if |rest| < 1 then t - {name} else t[name := rest]
  }

  /** Removing takes away exactly one copy of the listener; later copies stay. */
  lemma RemoveTakesOneCopy(t: Table, name: string, l: Listener)
    requires l in Lookup(t, Some(name))
    ensures multiset(Lookup(Remove(t, name, l), Some(name))) == multiset(Lookup(t, Some(name))) - multiset{l}
  {
    var s := Lookup(t, Some(name));
    var i := IndexOf(s, l);
    assert s == s[..i] + [l] + s[i + 1..];
  }

  /** Adding a listener not yet present and then removing it gives the table back,
      including dropping a name that the add created. */
  lemma AddThenRemove(t: Table, name: string, l: Listener)
    requires NoEmptyLists(t)
    requires l !in Lookup(t, Some(name))
    ensures Remove(Add(t, name, l), name, l) == t
  {
    var s := Lookup(t, Some(name));
    var a := Add(t, name, l);
    assert a[name] == s + [l];
    assert IndexOf(s + [l], l) == |s| by {
      assert (s + [l])[|s|] == l;
      assert (s + [l])[..|s|] == s;
    }
    assert (s + [l])[..|s|] + (s + [l])[|s| + 1..] == s;
    if s == [] {
      assert name !in t;
      assert a - {name} == t;
    } else {
      assert a[name := s] == t;
    }
  }

  /** With a copy already present, add-then-remove drops the earlier copy and keeps
      the new one at the end: removal is by first match, not by last insertion. */
  lemma AddThenRemoveDuplicate(t: Table, name: string, l: Listener)
    requires l in Lookup(t, Some(name))
    ensures
      var s := Lookup(t, Some(name));
      var i := IndexOf(s, l);
      Lookup(Remove(Add(t, name, l), name, l), Some(name)) == s[..i] + s[i + 1..] + [l]
  {
    var s := Lookup(t, Some(name));
    var i := IndexOf(s, l);
    assert IndexOf(s + [l], l) == i by {
      var j := IndexOf(s + [l], l);
      assert (s + [l])[i] == s[i];
      assert (s + [l])[..j] == s[..j] || j == |s|;
    }
    assert (s + [l])[..i] == s[..i];
    assert (s + [l])[i + 1..] == s[i + 1..] + [l];
  }

  /** The calls runEvent makes: each listener once, in list order, with the payload. */
  function Notify(ls: seq<Listener>, p: Payload): (calls: seq<Invocation>)
    ensures |calls| == |ls|
    ensures forall i | 0 <= i < |ls| :: calls[i] == Listened(ls[i], p)
  {
    if ls == [] then [] else Notify(ls[..|ls| - 1], p) + [Listened(ls[|ls| - 1], p)]
  }
}
