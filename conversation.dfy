/** The conversation history a chat request carries, and how the `/api/chat`
    handler cleans it before use (app.py:35-38, app.py:111-116). */
module Conversation {
  import opened Wrappers
  import opened PyText

  /** One earlier turn as the handler stores it (app.py:35-38). */
  datatype ChatTurn = ChatTurn(role: string, content: string)

  /** One entry of the request's `history` array, as decoded JSON: each of
      the two keys may be missing, and a present value is a JSON scalar. */
  datatype RawTurn = RawTurn(role: Option<Scalar>, content: Option<Scalar>)

  predicate IsHistoryRole(role: string) {
    role == "user" || role == "assistant"
  }

  /** What every stored turn satisfies: a history role and non-empty, trimmed content. */
  predicate ValidTurn(t: ChatTurn) {
    IsHistoryRole(t.role) && t.content != [] && IsStripped(t.content)
  }

  /** The turn an entry becomes, or `None` when the entry is dropped
      (app.py:113-116): kept exactly when its trimmed role is "user" or
      "assistant" and its trimmed content is not empty, and then stored trimmed. */
  function NormalizeTurn(item: RawTurn): (r: Option<ChatTurn>)
    ensures r.Some? <==> IsHistoryRole(FieldText(item.role)) && FieldText(item.content) != []
    ensures r.Some? ==> ValidTurn(r.value)
    ensures r.Some? ==> r.value.role == FieldText(item.role) && r.value.content == FieldText(item.content)
  {
    var role := FieldText(item.role);
    var content := FieldText(item.content);
    if IsHistoryRole(role) && content != [] then Some(ChatTurn(role, content)) else None
  }

  /** An entry without a role or without content is dropped: the missing
      value reads as "", which is neither a history role nor non-empty. */
  lemma {:induction false} MissingFieldDropped(item: RawTurn)
    requires item.role == None || item.content == None
    ensures NormalizeTurn(item) == None
  {
    StripOfStripped("");
    if item.role == None {
      assert FieldText(item.role) == "";
    } else {
      assert FieldText(item.content) == "";
    }
  }

  /** An entry whose content is a string of whitespace only is dropped. */
  lemma {:induction false} BlankContentDropped(item: RawTurn, s: string)
    requires item.content == Some(Str(s)) && AllSpace(s)
    ensures NormalizeTurn(item) == None
  {
    StripEmptyIff(s);
  }

  /** The turns kept from `items`, in their original order. */
  function KeptTurns(items: seq<RawTurn>): (r: seq<ChatTurn>)
    ensures |r| <= |items|
    ensures forall k :: 0 <= k < |r| ==> ValidTurn(r[k])
  {
    if items == [] then []
    else
      var front := KeptTurns(items[..|items| - 1]);
      match NormalizeTurn(items[|items| - 1])
      case Some(t) => front + [t]
      case None => front
  }

  /** Filtering distributes over concatenation, so kept turns keep the
      relative order of the entries they came from. */
  lemma {:induction false} KeptTurnsAppend(a: seq<RawTurn>, b: seq<RawTurn>)
    ensures KeptTurns(a + b) == KeptTurns(a) + KeptTurns(b)
  {
    if b == [] {
      assert a + b == a;
    } else {
      var b' := b[..|b| - 1];
      assert (a + b)[..|a + b| - 1] == a + b';
      assert (a + b)[|a + b| - 1] == b[|b| - 1];
      KeptTurnsAppend(a, b');
    }
  }

  /** Some entry of `items` normalises to `t`. */
  ghost predicate ComesFrom(items: seq<RawTurn>, t: ChatTurn) {
    exists i :: 0 <= i < |items| && NormalizeTurn(items[i]) == Some(t)
  }

  /** A turn is in the cleaned history exactly when some entry normalises to it. */
  lemma {:induction false} KeptTurnsMembership(items: seq<RawTurn>, t: ChatTurn)
    ensures t in KeptTurns(items) <==> ComesFrom(items, t)
  {
    if items != [] {
      var n := |items|;
      var front := items[..n - 1];
      KeptTurnsMembership(front, t);
      if t in KeptTurns(items) {
        if t in KeptTurns(front) {
          var i :| 0 <= i < |front| && NormalizeTurn(front[i]) == Some(t);
          assert items[i] == front[i];
        } else {
          assert NormalizeTurn(items[n - 1]) == Some(t);
        }
      }
      if ComesFrom(items, t) {
        var i :| 0 <= i < n && NormalizeTurn(items[i]) == Some(t);
        if i < n - 1 {
          assert front[i] == items[i];
          assert ComesFrom(front, t);
        }
      }
    }
  }

  /** Each stored turn written back as a history entry, the way a client
      resends the history it was given. */
  function AsRaw(turns: seq<ChatTurn>): (r: seq<RawTurn>)
    ensures |r| == |turns|
  {
    if turns == [] then []
    else
      var t := turns[|turns| - 1];
      AsRaw(turns[..|turns| - 1]) + [RawTurn(Some(Str(t.role)), Some(Str(t.content)))]
  }

  /** A valid turn written back as an entry normalises to itself. */
  lemma ValidTurnRoundTrip(t: ChatTurn)
    requires ValidTurn(t)
    ensures NormalizeTurn(RawTurn(Some(Str(t.role)), Some(Str(t.content)))) == Some(t)
  {
    assert IsStripped(t.role);
    StripOfStripped(t.role);
    StripOfStripped(t.content);
  }

  /** Valid turns survive normalisation unchanged. */
  lemma {:induction false} KeptTurnsOfValid(turns: seq<ChatTurn>)
    requires forall k :: 0 <= k < |turns| ==> ValidTurn(turns[k])
    ensures KeptTurns(AsRaw(turns)) == turns
  {
    if turns != [] {
      var front := turns[..|turns| - 1];
      ValidPrefix(turns, |turns| - 1);
      KeptTurnsOfValid(front);
      KeptTurnsOfValidStep(front, turns[|turns| - 1]);
      assert turns == front + [turns[|turns| - 1]];
    }
  }

  lemma ValidPrefix(turns: seq<ChatTurn>, j: nat)
    requires j <= |turns| && forall k :: 0 <= k < |turns| ==> ValidTurn(turns[k])
    ensures forall k :: 0 <= k < j ==> ValidTurn(turns[..j][k])
  {
  }

  /** The last step of `KeptTurnsOfValid`: a valid last turn is kept as it is. */
  lemma KeptTurnsOfValidStep(front: seq<ChatTurn>, t: ChatTurn)
    requires KeptTurns(AsRaw(front)) == front && ValidTurn(t)
    ensures KeptTurns(AsRaw(front + [t])) == front + [t]
  {
    var raw := RawTurn(Some(Str(t.role)), Some(Str(t.content)));
    assert (front + [t])[..|front|] == front;
    assert AsRaw(front + [t]) == AsRaw(front) + [raw];
    ValidTurnRoundTrip(t);
    assert (AsRaw(front) + [raw])[..|front|] == AsRaw(front);
  }

  /** Cleaning a cleaned history changes nothing. */
  lemma {:induction false} KeptTurnsIdempotent(items: seq<RawTurn>)
    ensures KeptTurns(AsRaw(KeptTurns(items))) == KeptTurns(items)
  {
    KeptTurnsOfValid(KeptTurns(items));
  }

  /** The filtering loop of the `/api/chat` handler (app.py:111-116). */
  method NormalizeHistory(items: seq<RawTurn>) returns (history: seq<ChatTurn>)
    ensures history == KeptTurns(items)
  {
    history := [];
    var i := 0;
    while i < |items|
      invariant 0 <= i <= |items|
      invariant history == KeptTurns(items[..i])
    {
      var role := FieldText(items[i].role);
      var content := FieldText(items[i].content);
      if IsHistoryRole(role) && content != [] {
        history := history + [ChatTurn(role, content)];
      }
      assert items[..i + 1][..i] == items[..i];
      i := i + 1;
    }
    assert items[..|items|] == items;
  }
}
