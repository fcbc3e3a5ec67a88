/** The shared event emitter, seen only through the listeners attached to it.
    The attachments are kept in the order they were made, because removing a
    listener drops the most recently added matching one. */
module Emitter {

  /** One listener attached for one event name; a `once` attachment is dropped
      by the emitter itself the first time the event is emitted. */
  datatype Attachment = Attachment(evt: string, listener: nat, once: bool)

  predicate Matches(a: Attachment, evt: string, listener: nat)
  {
    a.evt == evt && a.listener == listener
  }

  /** removeListener(evt, listener): drop the most recently added attachment of
      `listener` for `evt`, once-attachment or not; nothing if there is none. */
  function Detach(atts: seq<Attachment>, evt: string, listener: nat): (r: seq<Attachment>)
    ensures |r| == |atts| || |r| == |atts| - 1
    ensures forall a :: a in r ==> a in atts
    ensures (exists i :: 0 <= i < |atts| && Matches(atts[i], evt, listener)) <==> |r| == |atts| - 1
  {
    if atts == [] then []
    else if Matches(atts[|atts| - 1], evt, listener) then atts[..|atts| - 1]
    else Detach(atts[..|atts| - 1], evt, listener) + [atts[|atts| - 1]]
  }

  /** Removing a listener that is not attached for `evt` changes nothing. */
  lemma {:induction false} DetachWithoutMatch(atts: seq<Attachment>, evt: string, listener: nat)
    requires forall i :: 0 <= i < |atts| ==> !Matches(atts[i], evt, listener)
    ensures Detach(atts, evt, listener) == atts
  {
    if atts != [] {
      var init := atts[..|atts| - 1];
      DetachWithoutMatch(init, evt, listener);
      assert init + [atts[|atts| - 1]] == atts;
    }
  }

  /** Removing a listener that is attached drops exactly its last attachment `k`
      and keeps every other attachment, in order. */
  lemma {:induction false} DetachLastMatch(atts: seq<Attachment>, evt: string, listener: nat, k: nat)
    requires k < |atts| && Matches(atts[k], evt, listener)
    requires forall j :: k < j < |atts| ==> !Matches(atts[j], evt, listener)
    ensures Detach(atts, evt, listener) == atts[..k] + atts[k + 1..]
  {
    var n := |atts|;
    var init := atts[..n - 1];
    if k < n - 1 {
      assert !Matches(atts[n - 1], evt, listener);
      assert forall j :: k < j < |init| ==> init[j] == atts[j];
      DetachLastMatch(init, evt, listener, k);
      assert init[..k] == atts[..k];
      assert init[k + 1..] + [atts[n - 1]] == atts[k + 1..];
    }
  }

  /** Removing an attached listener takes exactly one attachment out of the
      emitter: the multiset of attachments loses `atts[k]` and nothing else. */
  lemma DetachRemovesOne(atts: seq<Attachment>, evt: string, listener: nat, k: nat)
    requires k < |atts| && Matches(atts[k], evt, listener)
    requires forall j :: k < j < |atts| ==> !Matches(atts[j], evt, listener)
    ensures multiset(Detach(atts, evt, listener)) == multiset(atts) - multiset{atts[k]}
  {
    DetachLastMatch(atts, evt, listener, k);
    WithoutOne(atts, k);
  }

  lemma WithoutOne<T>(s: seq<T>, k: nat)
    requires k < |s|
    ensures multiset(s[..k] + s[k + 1..]) == multiset(s) - multiset{s[k]}
  {
    assert s == s[..k] + [s[k]] + s[k + 1..];
  }

  /** emit(evt), all at once: every once-attachment for `evt` goes away. The
      emitter itself removes each once-attachment just before calling its own
      listener, between the calls; calling listeners is not modelled. */
  function Emit(atts: seq<Attachment>, evt: string): (r: seq<Attachment>)
    ensures |r| <= |atts|
    ensures forall a :: a in r ==> a in atts && !(a.evt == evt && a.once)
  {
    if atts == [] then []
    else (if atts[0].evt == evt && atts[0].once then [] else [atts[0]]) + Emit(atts[1..], evt)
  }

  /** After an emission, no once-attachment for `evt` is left, and every other
      attachment is kept as many times as it was there. */
  lemma {:induction false} EmitDropsOnceListeners(atts: seq<Attachment>, evt: string)
    ensures forall a :: multiset(Emit(atts, evt))[a] == if a.evt == evt && a.once then 0 else multiset(atts)[a]
  {
    if atts != [] {
      EmitDropsOnceListeners(atts[1..], evt);
      assert atts == [atts[0]] + atts[1..];
    }
  }

  /** An emission keeps the surviving attachments in their order: emitting over
      two consecutive stretches of attachments is emitting over each. */
  lemma {:induction false} EmitKeepsOrder(front: seq<Attachment>, back: seq<Attachment>, evt: string)
    ensures Emit(front + back, evt) == Emit(front, evt) + Emit(back, evt)
  {
    if front != [] {
      EmitKeepsOrder(front[1..], back, evt);
      assert (front + back)[1..] == front[1..] + back;
    } else {
      assert front + back == back;
    }
  }

  /** Attachments that are not once-attachments for `evt` all survive an
      emission, in their order. */
  lemma {:induction false} EmitKeepsOthers(atts: seq<Attachment>, evt: string)
    requires forall i :: 0 <= i < |atts| ==> !(atts[i].evt == evt && atts[i].once)
    ensures Emit(atts, evt) == atts
  {
    if atts != [] {
      EmitKeepsOthers(atts[1..], evt);
      assert [atts[0]] + atts[1..] == atts;
    }
  }
}
