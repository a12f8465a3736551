/**
 * The question broker's registry as values: the pending questions in
 * insertion order (a `Map` keyed by correlation id), the recorded responses,
 * and every transition the worker applies to them. The worker's methods are
 * proved to perform exactly these transitions; the lemmas here state what
 * the transitions guarantee.
 */
module Broker {
  import opened Base
  import opened Utils

  /** A pending question set, as `/api/ask` stores it. */
  datatype Entry = Entry(questions: seq<Question>, createdAt: int, awaitingTextResponse: bool)

  /** One `[correlationId, entry]` pair of the pending map. */
  datatype Slot = Slot(id: string, entry: Entry)

  datatype ResponseKind = TextReply | OptionReply | Cancelled

  /** A recorded response; `value` is `None` for `null`, the indices are present only for an option. */
  datatype Response = Response(kind: ResponseKind, value: Option<string>, questionIndex: Option<int>,
                               optionIndex: Option<int>, timestamp: int)

  /** The registry: pending questions in insertion order and the responses by correlation id. */
  datatype Store = Store(pending: seq<Slot>, responses: map<string, Response>)

  /** The correlation ids of the pending questions. */
  function Ids(pending: seq<Slot>): set<string> {
    set s | s in pending :: s.id
  }

  /** No correlation id is pending twice. */
  predicate UniqueIds(pending: seq<Slot>) {
    forall i, j :: 0 <= i < j < |pending| ==> pending[i].id != pending[j].id
  }

  /** A well-formed registry: ids are unique and an id is never both pending and answered. */
  predicate Valid(s: Store) {
    && UniqueIds(s.pending)
    && forall i :: 0 <= i < |s.pending| ==> s.pending[i].id !in s.responses
  }

  /** `pendingQuestions.delete(id)`: the entry with that id leaves, the others keep their order. */
  function Delete(pending: seq<Slot>, id: string): (r: seq<Slot>)
    ensures forall x :: x in r <==> x in pending && x.id != id
    ensures |r| <= |pending|
    ensures id !in Ids(pending) ==> r == pending
  {
    if |pending| == 0 then []
    else (if pending[0].id == id then [] else [pending[0]]) + Delete(pending[1..], id)
  }

  /** Deleting distributes over concatenation, so the remaining entries keep their order. */
  lemma {:induction false} DeleteAppend(a: seq<Slot>, b: seq<Slot>, id: string)
    ensures Delete(a + b, id) == Delete(a, id) + Delete(b, id)
  {
    if |a| == 0 {
      assert a + b == b;
    } else {
      DeleteAppend(a[1..], b, id);
      DeleteAppendStep(a, b, id);
    }
  }

  /** One step of `DeleteAppend`: the first entry of `a` is handled the same way on both sides. */
  lemma DeleteAppendStep(a: seq<Slot>, b: seq<Slot>, id: string)
    requires |a| > 0
    requires Delete(a[1..] + b, id) == Delete(a[1..], id) + Delete(b, id)
    ensures Delete(a + b, id) == Delete(a, id) + Delete(b, id)
  {
    var head := if a[0].id == id then [] else [a[0]];
    var da, db := Delete(a[1..], id), Delete(b, id);
    DeleteCons(a, id);
    TailOfAppend(a, b);
    DeleteCons(a + b, id);
    AppendAssoc(head, da, db);
  }

  lemma AppendAssoc(x: seq<Slot>, y: seq<Slot>, z: seq<Slot>)
    ensures x + (y + z) == (x + y) + z
  {
  }

  lemma TailOfAppend(a: seq<Slot>, b: seq<Slot>)
    requires |a| > 0
    ensures (a + b)[0] == a[0] && (a + b)[1..] == a[1..] + b
  {
  }

  /** With unique ids, deleting the id at position `i` removes exactly that position. */
  lemma {:induction false} DeleteAt(pending: seq<Slot>, i: nat)
    requires UniqueIds(pending)
    requires i < |pending|
    ensures Delete(pending, pending[i].id) == pending[..i] + pending[i + 1..]
  {
    if i == 0 {
      DeleteFirst(pending);
    } else {
      UniqueTail(pending);
      DeleteAt(pending[1..], i - 1);
      HeadIdDiffers(pending, i);
      DeleteLater(pending, i);
    }
  }

  /** With unique ids, a later entry's id is not the first entry's, and it is the tail's entry `i - 1`. */
  lemma HeadIdDiffers(pending: seq<Slot>, i: nat)
    requires UniqueIds(pending) && 0 < i < |pending|
    ensures pending[0].id != pending[i].id && pending[1..][i - 1] == pending[i]
  {
  }

  lemma UniqueTail(pending: seq<Slot>)
    requires UniqueIds(pending) && |pending| > 0
    ensures UniqueIds(pending[1..])
  {
    var rest := pending[1..];
    forall a, b | 0 <= a < b < |rest|
      ensures rest[a].id != rest[b].id
    {
      assert rest[a] == pending[a + 1] && rest[b] == pending[b + 1];
    }
  }

  /** With unique ids, deleting the first id drops the first entry. */
  lemma DeleteFirst(pending: seq<Slot>)
    requires UniqueIds(pending) && |pending| > 0
    ensures Delete(pending, pending[0].id) == pending[1..]
  {
    var id, rest := pending[0].id, pending[1..];
    assert forall j :: 0 <= j < |rest| ==> rest[j] == pending[j + 1];
    calc {
      Delete(pending, id);
    == { DeleteCons(pending, id); }
      [] + Delete(rest, id);
    == { NotInIds(rest, id); }
      rest;
    }
  }

  /** Deleting a later id keeps the first entry in front of what the rest becomes. */
  lemma DeleteLater(pending: seq<Slot>, i: nat)
    requires 0 < i < |pending| && pending[0].id != pending[i].id
    requires Delete(pending[1..], pending[i].id) == pending[1..][..i - 1] + pending[1..][i..]
    ensures Delete(pending, pending[i].id) == pending[..i] + pending[i + 1..]
  {
    DeleteCons(pending, pending[i].id);
    SpliceFront(pending, i);
  }

  lemma SpliceFront(pending: seq<Slot>, i: nat)
    requires 0 < i < |pending|
    ensures [pending[0]] + (pending[1..][..i - 1] + pending[1..][i..]) == pending[..i] + pending[i + 1..]
  {
    assert pending[1..][..i - 1] == pending[1..i] && pending[1..][i..] == pending[i + 1..];
    assert [pending[0]] + pending[1..i] == pending[..i];
  }

  /** `Delete` looks at the first entry, then at the rest. */
  lemma DeleteCons(pending: seq<Slot>, id: string)
    requires |pending| > 0
    ensures Delete(pending, id) == (if pending[0].id == id then [] else [pending[0]]) + Delete(pending[1..], id)
  {
  }

  lemma NotInIds(pending: seq<Slot>, id: string)
    requires forall j :: 0 <= j < |pending| ==> pending[j].id != id
    ensures id !in Ids(pending)
  {
    forall x | x in pending
      ensures x.id != id
    {
      var j :| 0 <= j < |pending| && pending[j] == x;
    }
  }

  /** Removing positions keeps the ids unique. */
  lemma RemoveAtUnique(pending: seq<Slot>, i: nat)
    requires UniqueIds(pending) && i < |pending|
    ensures UniqueIds(pending[..i] + pending[i + 1..])
  {
    var r := pending[..i] + pending[i + 1..];
    forall a, b | 0 <= a < b < |r|
      ensures r[a].id != r[b].id
    {
      var a' := if a < i then a else a + 1;
      var b' := if b < i then b else b + 1;
      assert r[a] == pending[a'] && r[b] == pending[b'];
    }
  }

  /** The index of the first entry waiting for a typed reply (`Array.from(...).find(...)`). */
  function FirstAwaiting(pending: seq<Slot>): (r: Option<nat>)
    ensures r.None? ==> forall i :: 0 <= i < |pending| ==> !pending[i].entry.awaitingTextResponse
    ensures r.Some? ==> r.value < |pending| && pending[r.value].entry.awaitingTextResponse
    ensures r.Some? ==> forall j :: 0 <= j < r.value ==> !pending[j].entry.awaitingTextResponse
  {
    if |pending| == 0 then None
    else if pending[0].entry.awaitingTextResponse then Some(0)
    else match FirstAwaiting(pending[1..])
      case None => None
      case Some(k) => Some(k + 1)
  }

  // ---------------------------------------------------------------------------
  // Transitions
  // ---------------------------------------------------------------------------

  /** `pendingQuestions.set(id, entry)` for an id not yet in the map. */
  function Insert(s: Store, id: string, entry: Entry): Store {
    Store(s.pending + [Slot(id, entry)], s.responses)
  }

  /** A plain chat message: the first entry awaiting text is answered with it and removed. */
  function AcceptText(s: Store, text: string, now: int): Store {
    match FirstAwaiting(s.pending)
    case None => s
    case Some(i) =>
      var id := s.pending[i].id;
      Store(Delete(s.pending, id), s.responses[id := Response(TextReply, Some(text), None, None, now)])
  }

  /** The "other" button: the first pending entry starts waiting for a typed reply. */
  function MarkOther(s: Store): Store {
    if |s.pending| == 0 then s
    else
      var first := s.pending[0];
      Store(s.pending[0 := Slot(first.id, first.entry.(awaitingTextResponse := true))], s.responses)
  }

  /** What pressing option `o` of question `q` comes to. */
  datatype Selection = Expired | InvalidOption | Recorded(optionLabel: string)

  /** `question.questions[q]?.options?.[o]`: the option, if both indices are in range. */
  function OptionAt(questions: seq<Question>, q: Option<int>, o: Option<int>): (r: Option<QuestionOption>)
    ensures r.Some? <==> q.Some? && o.Some? && 0 <= q.value < |questions| && 0 <= o.value < |questions[q.value].options|
  {
    if q.Some? && o.Some? && 0 <= q.value < |questions| && 0 <= o.value < |questions[q.value].options| then
      Some(questions[q.value].options[o.value])
    else None
  }

  /** The outcome of an option button press, resolved against the first pending entry. */
  function Select(s: Store, q: Option<int>, o: Option<int>): Selection {
    if |s.pending| == 0 then Expired
    else match OptionAt(s.pending[0].entry.questions, q, o)
      case None => InvalidOption
      case Some(opt) => Recorded(opt.optionLabel)
  }

  /** The registry after an option button press. */
  function SelectOption(s: Store, q: Option<int>, o: Option<int>, now: int): Store {
    match Select(s, q, o)
    case Recorded(l) =>
      var id := s.pending[0].id;
      Store(Delete(s.pending, id), s.responses[id := Response(OptionReply, Some(l), q, o, now)])
    case _ => s
  }

  /** The response `/cancel` records for every pending id. */
  function CancelledAt(now: int): Response {
    Response(Cancelled, None, None, None, now)
  }

  /** The cancelled responses for a run of pending entries. */
  function CancelMap(pending: seq<Slot>, now: int): map<string, Response> {
    map id | id in Ids(pending) :: CancelledAt(now)
  }

  /** `/cancel`: every pending id is answered as cancelled, then the pending map is cleared. */
  function CancelAll(s: Store, now: int): Store {
    if |s.pending| == 0 then s else Store([], s.responses + CancelMap(s.pending, now))
  }

  /** The `/api/ask` timeout: only the pending entry goes. */
  function Expire(s: Store, id: string): Store {
    Store(Delete(s.pending, id), s.responses)
  }

  /** Read-once lookup of a response (`has`, `get`, then `delete`). */
  function Take(s: Store, id: string): (Store, Option<Response>) {
    if id in s.responses then (Store(s.pending, s.responses - {id}), Some(s.responses[id]))
    else (s, None)
  }

  // ---------------------------------------------------------------------------
  // What the transitions guarantee
  // ---------------------------------------------------------------------------

  /** Going from `s` to `t` records or changes responses only for ids that were pending in `s`. */
  predicate WritesOnlyPending(s: Store, t: Store) {
    forall k :: k in t.responses && (k !in s.responses || t.responses[k] != s.responses[k]) ==> k in Ids(s.pending)
  }

  /**
   * Two steps that each write only pending ids, the second starting from no
   * more pending ids than the first, together write only ids pending at the start.
   */
  lemma WritesCompose(a: Store, b: Store, c: Store)
    requires WritesOnlyPending(a, b) && WritesOnlyPending(b, c)
    requires Ids(b.pending) <= Ids(a.pending)
    requires a.responses.Keys <= b.responses.Keys
    ensures WritesOnlyPending(a, c)
  {
  }

  /**
   * A typed reply answers the first entry awaiting text: that entry receives
   * a text response holding the reply and leaves the pending map, every other
   * entry staying where it was. With no entry awaiting text nothing changes.
   */
  lemma AcceptTextSpec(s: Store, text: string, now: int)
    requires UniqueIds(s.pending)
    ensures FirstAwaiting(s.pending).None? ==> AcceptText(s, text, now) == s
    ensures FirstAwaiting(s.pending).Some? ==>
      var i := FirstAwaiting(s.pending).value;
      var t := AcceptText(s, text, now);
      && t.pending == s.pending[..i] + s.pending[i + 1..]
      && t.responses == s.responses[s.pending[i].id := Response(TextReply, Some(text), None, None, now)]
  {
    if FirstAwaiting(s.pending).Some? {
      DeleteAt(s.pending, FirstAwaiting(s.pending).value);
    }
  }

  /** A typed reply keeps the registry well-formed and writes only the id it resolves. */
  lemma AcceptTextValid(s: Store, text: string, now: int)
    requires Valid(s)
    ensures Valid(AcceptText(s, text, now))
    ensures WritesOnlyPending(s, AcceptText(s, text, now))
  {
    if FirstAwaiting(s.pending).Some? {
      var i := FirstAwaiting(s.pending).value;
      var r := Response(TextReply, Some(text), None, None, now);
      AcceptTextSpec(s, text, now);
      assert AcceptText(s, text, now) == Store(s.pending[..i] + s.pending[i + 1..], s.responses[s.pending[i].id := r]);
      ResolveValid(s, i, r);
    }
  }

  /** Answering pending entry `i` and removing it keeps the registry well-formed and writes only its id. */
  lemma ResolveValid(s: Store, i: nat, r: Response)
    requires Valid(s) && i < |s.pending|
    ensures var t := Store(s.pending[..i] + s.pending[i + 1..], s.responses[s.pending[i].id := r]);
      Valid(t) && WritesOnlyPending(s, t)
  {
    RemoveAtUnique(s.pending, i);
    var t := Store(s.pending[..i] + s.pending[i + 1..], s.responses[s.pending[i].id := r]);
    forall j | 0 <= j < |t.pending|
      ensures t.pending[j].id !in t.responses
    {
      var j' := if j < i then j else j + 1;
      assert t.pending[j] == s.pending[j'];
    }
    assert s.pending[i] in s.pending;
  }

  /**
   * The "other" button changes only the first entry's waiting flag: the ids,
   * their order, the question sets and the responses stay as they were.
   */
  lemma MarkOtherSpec(s: Store)
    requires Valid(s)
    ensures var t := MarkOther(s);
      && |t.pending| == |s.pending|
      && t.responses == s.responses
      && (forall i :: 0 <= i < |s.pending| ==>
            t.pending[i].id == s.pending[i].id && t.pending[i].entry.questions == s.pending[i].entry.questions)
      && (|s.pending| > 0 ==> t.pending[0].entry.awaitingTextResponse)
      && (forall i :: 1 <= i < |s.pending| ==> t.pending[i] == s.pending[i])
    ensures Valid(MarkOther(s))
    ensures WritesOnlyPending(s, MarkOther(s))
  {
  }

  /**
   * An option press on the first pending entry with indices in range records
   * an option response carrying the option's label and both indices, and
   * removes that entry; otherwise nothing changes.
   */
  lemma SelectOptionSpec(s: Store, q: Option<int>, o: Option<int>, now: int)
    requires Valid(s)
    ensures var t := SelectOption(s, q, o, now);
      match Select(s, q, o)
      case Recorded(l) =>
        && l == s.pending[0].entry.questions[q.value].options[o.value].optionLabel
        && t.pending == s.pending[1..]
        && t.responses == s.responses[s.pending[0].id := Response(OptionReply, Some(l), q, o, now)]
      case _ => t == s
    ensures Select(s, q, o) == Expired <==> |s.pending| == 0
    ensures Valid(SelectOption(s, q, o, now))
    ensures WritesOnlyPending(s, SelectOption(s, q, o, now))
  {
    if Select(s, q, o).Recorded? {
      DeleteAt(s.pending, 0);
      RemoveAtUnique(s.pending, 0);
      assert s.pending[..0] + s.pending[1..] == s.pending[1..];
      var t := SelectOption(s, q, o, now);
      forall j | 0 <= j < |t.pending|
        ensures t.pending[j].id !in t.responses
      {
        assert t.pending[j] == s.pending[j + 1];
      }
    }
  }

  /**
   * `/cancel` answers every pending id with a cancelled response whose value
   * is null and empties the pending map; other responses are kept. With
   * nothing pending it changes nothing.
   */
  lemma CancelAllSpec(s: Store, now: int)
    requires Valid(s)
    ensures var t := CancelAll(s, now);
      && t.pending == []
      && t.responses.Keys == s.responses.Keys + Ids(s.pending)
      && (forall i :: 0 <= i < |s.pending| ==> t.responses[s.pending[i].id] == CancelledAt(now))
      && (forall k :: k in s.responses ==> t.responses[k] == s.responses[k])
      && (|s.pending| == 0 ==> t == s)
    ensures Valid(CancelAll(s, now))
    ensures WritesOnlyPending(s, CancelAll(s, now))
  {
    var t := CancelAll(s, now);
    forall i | 0 <= i < |s.pending|
      ensures t.responses[s.pending[i].id] == CancelledAt(now)
    {
      assert s.pending[i] in s.pending;
    }
  }

  /** A new question set goes to the end of the pending map; a fresh id keeps the registry well-formed. */
  lemma InsertSpec(s: Store, id: string, entry: Entry)
    requires Valid(s)
    requires id !in Ids(s.pending) && id !in s.responses
    ensures Valid(Insert(s, id, entry))
    ensures Ids(Insert(s, id, entry).pending) == Ids(s.pending) + {id}
    ensures Insert(s, id, entry).pending[|s.pending|] == Slot(id, entry)
  {
    var t := Insert(s, id, entry);
    forall i, j | 0 <= i < j < |t.pending|
      ensures t.pending[i].id != t.pending[j].id
    {
      if j == |s.pending| {
        assert s.pending[i] in s.pending;
      }
    }
  }

  /** On timeout the pending entry goes; a response recorded for the id meanwhile stays. */
  lemma ExpireSpec(s: Store, id: string)
    requires Valid(s)
    ensures Valid(Expire(s, id))
    ensures id !in Ids(Expire(s, id).pending)
    ensures Expire(s, id).responses == s.responses
    ensures forall x :: x in s.pending && x.id != id ==> x in Expire(s, id).pending
  {
    var t := Expire(s, id);
    if id in Ids(s.pending) {
      var x :| x in s.pending && x.id == id;
      var i :| 0 <= i < |s.pending| && s.pending[i] == x;
      DeleteAt(s.pending, i);
      RemoveAtUnique(s.pending, i);
    }
    forall i | 0 <= i < |t.pending|
      ensures t.pending[i].id !in t.responses
    {
      assert t.pending[i] in s.pending;
    }
  }

  /**
   * A response is delivered once: taking it returns what was recorded and
   * removes it, so a second take finds nothing; a miss changes nothing.
   */
  lemma TakeOnce(s: Store, id: string)
    ensures id in s.responses ==> Take(s, id).1 == Some(s.responses[id])
    ensures id !in s.responses ==> Take(s, id) == (s, None)
    ensures Take(Take(s, id).0, id).1 == None
    ensures Take(s, id).0.pending == s.pending
    ensures forall k :: k != id && k in s.responses ==> k in Take(s, id).0.responses
  {
  }

  /**
   * After a timeout purges a question, no later reply can answer it: typed
   * replies, option presses and `/cancel` all leave that id's response as it was.
   */
  lemma LateReplyIgnored(s: Store, id: string, text: string, q: Option<int>, o: Option<int>, now: int)
    requires Valid(s)
    ensures var e := Expire(s, id);
      && (id in AcceptText(e, text, now).responses <==> id in e.responses)
      && (id in SelectOption(e, q, o, now).responses <==> id in e.responses)
      && (id in CancelAll(e, now).responses <==> id in e.responses)
      && (id in e.responses ==>
            && AcceptText(e, text, now).responses[id] == e.responses[id]
            && SelectOption(e, q, o, now).responses[id] == e.responses[id]
            && CancelAll(e, now).responses[id] == e.responses[id])
  {
    var e := Expire(s, id);
    ExpireSpec(s, id);
    AcceptTextValid(e, text, now);
    SelectOptionSpec(e, q, o, now);
    CancelAllSpec(e, now);
  }

  /**
   * The `/api/ask` round trip through a button: with nothing else pending, a
   * press on a valid option of the new question set records that option for
   * the asker, which then takes it exactly once.
   */
  lemma OptionReachesAsker(s: Store, id: string, entry: Entry, q: nat, o: nat, now: int)
    requires Valid(s) && s.pending == [] && id !in s.responses
    requires q < |entry.questions| && o < |entry.questions[q].options|
    ensures var t := SelectOption(Insert(s, id, entry), Some(q), Some(o), now);
      && t.pending == []
      && Take(t, id).1 == Some(Response(OptionReply, Some(entry.questions[q].options[o].optionLabel), Some(q), Some(o), now))
      && Take(Take(t, id).0, id).1 == None
  {
    var u := Insert(s, id, entry);
    InsertSpec(s, id, entry);
    SelectOptionSpec(u, Some(q), Some(o), now);
  }

  /**
   * The `/api/ask` round trip through "Other": with nothing else pending,
   * the button followed by a typed reply records that text for the asker.
   */
  lemma OtherThenTextReachesAsker(s: Store, id: string, entry: Entry, text: string, now: int)
    requires Valid(s) && s.pending == [] && id !in s.responses
    ensures var t := AcceptText(MarkOther(Insert(s, id, entry)), text, now);
      && t.pending == []
      && Take(t, id).1 == Some(Response(TextReply, Some(text), None, None, now))
  {
    var u := Insert(s, id, entry);
    InsertSpec(s, id, entry);
    MarkOtherSpec(u);
    var m := MarkOther(u);
    assert FirstAwaiting(m.pending) == Some(0);
    AcceptTextSpec(m, text, now);
  }

  /**
   * Buttons resolve against the oldest pending question set: with `a` asked
   * before `b`, a press whose indices fit `a` answers `a`, and `b` stays
   * pending without a response, whichever message carried the button.
   */
  lemma PressAnswersOldest(s: Store, a: string, ea: Entry, b: string, eb: Entry, q: nat, o: nat, now: int)
    requires Valid(s) && s.pending == [] && a != b && a !in s.responses && b !in s.responses
    requires q < |ea.questions| && o < |ea.questions[q].options|
    ensures var t := SelectOption(Insert(Insert(s, a, ea), b, eb), Some(q), Some(o), now);
      && a in t.responses && t.responses[a].kind == OptionReply
      && b !in t.responses
      && t.pending == [Slot(b, eb)]
  {
    var u := Insert(s, a, ea);
    InsertSpec(s, a, ea);
    var v := Insert(u, b, eb);
    InsertSpec(u, b, eb);
    SelectOptionSpec(v, Some(q), Some(o), now);
  }
}
