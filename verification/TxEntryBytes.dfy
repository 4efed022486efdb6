/** How the transaction hash builder takes an entry of the body map: what is asserted of its states before and after,
    and lists, whose elements come one after the other. */
module TxEntryBytes {
  import opened Basics
  import opened Cbor
  import opened TxBody
  import opened TxHashBuilder
  import opened TxItems
  import opened TxElementBytes

  // ------------------------------------------------------------ lists

  /** The counters of entry e and the later ones are as in p. */
  predicate Expects(s: State, p: Params, e: nat) {
    s.tagCborSets == p.tagCborSets && forall j :: e <= j < ENTRIES ==> s.left[j] == Remaining(p, j)
  }

  /** The counters have not changed. */
  predicate Agree(s: State, t: State) {
    t.tagCborSets == s.tagCborSets && t.left == s.left
  }

  /** Entry e can be left, and the later ones have not been touched. */
  predicate At(s: State, p: Params, e: nat) {
    && e < ENTRIES && s.phase.IN? && s.phase.entry <= e && CanLeave(s, e) && Expects(s, p, e + 1)
    && (e == IN_INPUTS ==> s.data == NO_OUTPUT)
  }

  /** A state of a list between two elements. */
  predicate InList(s: State, e: nat) {
    && s.phase == IN(e)
    && (e == IN_INPUTS ==> s.data == NO_OUTPUT)
    && (e == IN_OUTPUTS ==> CanLeaveCurrentOutput(s.data))
    && (e == IN_CERTIFICATES ==> s.data == PoolCertificateData(0, 0))
  }

  /** The word of an element is let through where an element is expected, and its items are written. */
  predicate ElementTaken(s: State, e: nat, word: seq<Call>, items: seq<Item>)
    requires IsList(e) && e < ENTRIES
  {
    && AllFit(items)
    && (InList(s, e) && s.left[e] > 0 ==>
        && Run(s, word).Some?
        && var t := Run(s, word).value;
           InList(t, e) && Agree(s.Less(e), t) && t.hashed == s.hashed + EncodeAll(items))
  }

  lemma SimpleElement(s: State, e: nat, c: Call, items: seq<Item>, bytes: seq<byte>)
    requires IsList(e) && e < ENTRIES && Step(s, c) == AddElement(s, e, bytes) && Encodes(items, bytes)
    ensures ElementTaken(s, e, [c], items)
  {
    hide Step, Run, Fits, EncodeAll, CanLeaveCurrentOutput;
    RunOne(s, c);
  }

  /** In a list, n elements with the given items have been taken between the two states. */
  predicate ListTaken(s: State, e: nat, n: nat, items: seq<Item>, t: State)
    requires e < ENTRIES && n <= s.left[e]
  {
    && AllFit(items) && InList(t, e) && t.hashed == s.hashed + EncodeAll(items)
    && t.tagCborSets == s.tagCborSets && t.left == s.left[e := s.left[e] - n]
  }

  lemma ListSnoc(s: State, e: nat, n: nat, items: seq<Item>, t: State, more: seq<Item>, u: State)
    requires e < ENTRIES && n < s.left[e] && ListTaken(s, e, n, items, t)
    requires AllFit(more) && InList(u, e) && Agree(t.Less(e), u) && u.hashed == t.hashed + EncodeAll(more)
    ensures ListTaken(s, e, n + 1, items + more, u)
  {
    hide Fits, EncodeAll, InList;
    EncodeAllAppend(items, more);
    Glue(u.hashed, s.hashed, EncodeAll(items), EncodeAll(more));
  }

  lemma NothingTaken(s: State, e: nat)
    requires e < ENTRIES && InList(s, e)
    ensures ListTaken(s, e, 0, [], s)
  {
    hide InList;
    NothingEncoded(s.hashed);
    assert s.left[e := s.left[e]] == s.left;
  }

  /** All elements of a list, one after the other. */
  lemma {:induction false} ListRun<A>(s: State, e: nat, word: A -> seq<Call>, items: A -> seq<Item>, xs: seq<A>)
    requires IsList(e) && e < ENTRIES && InList(s, e) && s.left[e] >= |xs|
    requires forall t: State, i :: 0 <= i < |xs| && t.tagCborSets == s.tagCborSets ==>
             ElementTaken(t, e, word(xs[i]), items(xs[i]))
    ensures Run(s, Flat(word, xs)).Some? && ListTaken(s, e, |xs|, Flat(items, xs), Run(s, Flat(word, xs)).value)
  {
    hide Step, Run, Fits, EncodeAll, InList, IsList, ListTaken;
    if xs == [] {
      RunNext(s, []);
      NothingTaken(s, e);
    } else {
      var n := |xs| - 1;
      ghost var ys := xs[..n];
      forall t: State, i | 0 <= i < n && t.tagCborSets == s.tagCborSets
        ensures ElementTaken(t, e, word(ys[i]), items(ys[i]))
      {
        assert ys[i] == xs[i];
      }
      ListRun(s, e, word, items, ys);
      var t := Run(s, Flat(word, ys)).value;
      assert InList(t, e) && t.left[e] == s.left[e] - n && t.tagCborSets == s.tagCborSets by {
        Unfold(s, e, n, Flat(items, ys), t);
      }
      assert ElementTaken(t, e, word(xs[n]), items(xs[n]));
      RunAppend(s, Flat(word, ys), word(xs[n]));
      ListSnoc(s, e, n, Flat(items, ys), t, items(xs[n]), Run(t, word(xs[n])).value);
    }
  }

  lemma Unfold(s: State, e: nat, n: nat, items: seq<Item>, t: State)
    requires e < ENTRIES && n <= s.left[e] && ListTaken(s, e, n, items, t)
    ensures AllFit(items) && InList(t, e) && t.left[e] == s.left[e] - n && t.tagCborSets == s.tagCborSets
  {
  }

  lemma NothingEncoded(b: seq<byte>)
    ensures EncodeAll([]) == [] && b + EncodeAll([]) == b
  {
  }

  // ------------------------------------------------------------ entries

  /** The word of an entry is let through, and its items are written. */
  predicate EntryDone(s: State, p: Params, e: nat, word: seq<Call>, items: seq<Item>) {
    && AllFit(items) && Run(s, word).Some?
    && var t := Run(s, word).value; At(t, p, e) && t.hashed == s.hashed + EncodeAll(items)
  }

  /** An entry that is not expected is passed over. */
  lemma PassedOver(s: State, p: Params, e: nat)
    requires 0 < e < ENTRIES && At(s, p, e - 1) && !Included(p, e)
    ensures EntryDone(s, p, e, [], [])
  {
    hide Step, Run, Fits, EncodeAll, Complete;
    RunNext(s, []);
    NothingEncoded(s.hashed);
  }

  /** An entry with a value of one call. */
  lemma ValueEntry(s: State, p: Params, e: nat, c: Call, value: Item, bytes: seq<byte>)
    requires 0 < e < ENTRIES && At(s, p, e - 1) && Included(p, e)
    requires !IsList(e) && e != IN_COLLATERAL_OUTPUT && e != IN_MINT
    requires Step(s, c) == AddValue(s, e, bytes) && Encodes([value], bytes)
    ensures EntryDone(s, p, e, [c], [Uint(Key(e))] + [value])
  {
    hide Step, Run, Fits, EncodeAll, Remaining, Key, Head, Encode, CanLeave;
    RunOne(s, c);
    AlwaysExpected(p, e);
    NumberEncoded(Key(e));
    OneEncoded(Uint(Key(e)));
    EncodesBoth([Uint(Key(e))], Head(Unsigned, Key(e)), [value], bytes);
    Glue(s.hashed + (Head(Unsigned, Key(e)) + bytes), s.hashed, Head(Unsigned, Key(e)), bytes);
    assert At(Run(s, [c]).value, p, e) by {
      Entered(Run(s, [c]).value, e);
    }
  }

  lemma AlwaysExpected(p: Params, e: nat)
    requires Included(p, e) && !IsList(e)
    ensures Remaining(p, e) > 0
  {
  }

  lemma Entered(s: State, e: nat)
    requires e < ENTRIES && s.phase == IN(e) && Complete(s, e)
    ensures CanLeave(s, e)
  {
  }

  /** An entry with a list: c opens it, and what it writes after the key is the head of the value. */
  lemma ListEntry<A>(s: State, p: Params, e: nat, c: Call, head: seq<byte>, word: A -> seq<Call>,
                     items: A -> seq<Item>, xs: seq<A>, value: seq<Item>)
    requires IsList(e) && e < ENTRIES && Expects(s, p, e) && |xs| == Remaining(p, e)
    requires Step(s, c).Some?
    requires var u := Step(s, c).value;
             InList(u, e) && Agree(s, u) && u.hashed == s.hashed + (Head(Unsigned, Key(e)) + head)
    requires forall t: State, i :: 0 <= i < |xs| && t.tagCborSets == s.tagCborSets ==>
             ElementTaken(t, e, word(xs[i]), items(xs[i]))
    requires AllFit(Flat(items, xs)) ==> Encodes(value, head + EncodeAll(Flat(items, xs)))
    ensures EntryDone(s, p, e, [c] + Flat(word, xs), [Uint(Key(e))] + value)
  {
    hide Step, Run, Fits, EncodeAll, InList, Remaining, Key, Head, Encode, CanLeave, IsList, ListTaken, ElementTaken,
         Encodes, Flat, At;
    var u := Step(s, c).value;
    ListRun(u, e, word, items, xs);
    RunOne(s, c);
    RunAppend(s, [c], Flat(word, xs));
    Unfold(u, e, |xs|, Flat(items, xs), Run(u, Flat(word, xs)).value);
    ListDone(s, p, e, head, u, Flat(items, xs), Run(u, Flat(word, xs)).value, value);
  }

  lemma ListDone(s: State, p: Params, e: nat, head: seq<byte>, u: State, items: seq<Item>, t: State, value: seq<Item>)
    requires IsList(e) && e < ENTRIES && Expects(s, p, e) && Agree(s, u)
    requires u.hashed == s.hashed + (Head(Unsigned, Key(e)) + head)
    requires ListTaken(u, e, Remaining(p, e), items, t) && Encodes(value, head + EncodeAll(items))
    ensures AllFit([Uint(Key(e))] + value) && At(t, p, e) && t.hashed == s.hashed + EncodeAll([Uint(Key(e))] + value)
  {
    hide Fits, EncodeAll, InList, Remaining, Key, Head, Encode, CanLeave, IsList;
    NumberEncoded(Key(e));
    OneEncoded(Uint(Key(e)));
    var key, rest := Head(Unsigned, Key(e)), EncodeAll(items);
    EncodesBoth([Uint(Key(e))], key, value, head + rest);
    Glue(t.hashed, s.hashed, key + head, rest);
    Glue(key + head + rest, key, head, rest);
    ListComplete(t, e);
    Entered(t, e);
  }

  lemma ListComplete(s: State, e: nat)
    requires IsList(e) && e < ENTRIES && InList(s, e) && s.left[e] == 0
    ensures Complete(s, e) && s.phase == IN(e) && (e == IN_INPUTS ==> s.data == NO_OUTPUT)
  {
  }
}
