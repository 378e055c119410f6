/** The chat transcript kept in the session under the key "messages": a list of
    `{"role": ..., "content": ...}` records, in conversation order. */
module Transcript {
  import opened PyStrip

  datatype Role = User | Assistant

  datatype Turn = Turn(role: Role, content: string)

  /** The role the turn at position `i` must have: user turns at even
      positions, assistant turns at odd ones. */
  function RoleAt(i: nat): Role {
    if i % 2 == 0 then User else Assistant
  }

  /** The shape the transcript keeps: an even number of turns alternating
      user, assistant, user, assistant, ... starting with a user turn. */
  predicate Alternates(m: seq<Turn>) {
    |m| % 2 == 0 && forall i :: 0 <= i < |m| ==> m[i].role == RoleAt(i)
  }

  /** A user turn holds a stripped, non-empty query. */
  predicate StrippedIfUser(t: Turn) {
    t.role == User ==> t.content != [] && Trimmed(t.content)
  }

  /** Every user turn holds a stripped, non-empty query. */
  predicate UserTurnsStripped(m: seq<Turn>) {
    forall i :: 0 <= i < |m| ==> StrippedIfUser(m[i])
  }

  /** One exchange: a user turn and the assistant turn answering it. */
  function Exchange(query: string, answer: string): (e: seq<Turn>)
    ensures |e| == 2 && e[0].role == User && e[1].role == Assistant
  {
    [Turn(User, query), Turn(Assistant, answer)]
  }

  /** The shape the transcript keeps, exchange by exchange: it is a chain of
      exchanges laid end to end, each opened by a stripped non-empty query. */
  predicate WellFormed(m: seq<Turn>)
    decreases |m|
  {
    || m == []
    || (&& |m| >= 2
        && m[0].role == User && m[0].content != [] && Trimmed(m[0].content)
        && m[1].role == Assistant
        && WellFormed(m[2..]))
  }

  /** The positional shape of `m` is that of its first exchange followed by
      that of the rest. */
  lemma AlternatesCons(m: seq<Turn>)
    requires |m| >= 2
    ensures Alternates(m) <==> m[0].role == User && m[1].role == Assistant && Alternates(m[2..])
  {
    var t := m[2..];
    if Alternates(m) {
      forall i | 0 <= i < |t| ensures t[i].role == RoleAt(i) {
        assert t[i] == m[i + 2] && RoleAt(i + 2) == RoleAt(i);
      }
    }
    if m[0].role == User && m[1].role == Assistant && Alternates(t) {
      forall i | 2 <= i < |m| ensures m[i].role == RoleAt(i) {
        assert m[i] == t[i - 2] && RoleAt(i - 2) == RoleAt(i);
      }
    }
  }

  lemma StrippedCons(m: seq<Turn>)
    requires |m| >= 2
    ensures UserTurnsStripped(m) <==> StrippedIfUser(m[0]) && StrippedIfUser(m[1]) && UserTurnsStripped(m[2..])
  {
    var t := m[2..];
    if StrippedIfUser(m[0]) && StrippedIfUser(m[1]) && UserTurnsStripped(t) {
      forall i | 2 <= i < |m| ensures StrippedIfUser(m[i]) {
        assert m[i] == t[i - 2];
      }
    }
  }

  /** The exchange-by-exchange shape and the positional shape agree. */
  lemma {:induction false} WellFormedIffPositional(m: seq<Turn>)
    ensures WellFormed(m) <==> Alternates(m) && UserTurnsStripped(m)
    decreases |m|
  {
    if |m| >= 2 {
      WellFormedIffPositional(m[2..]);
      AlternatesCons(m);
      StrippedCons(m);
    } else if |m| == 1 {
      assert m[0].role == User ==> !Alternates(m);
    }
  }

  /** In a well-formed transcript of even length, user turns sit exactly at
      even positions. Every user turn is answered by the very next turn and
      holds a stripped non-empty query. Every assistant turn answers the turn
      just before it. */
  lemma WellFormedPairsTurns(m: seq<Turn>, i: nat)
    requires WellFormed(m) && i < |m|
    ensures |m| % 2 == 0
    ensures m[i].role == User <==> i % 2 == 0
    ensures m[i].role == User ==>
      i + 1 < |m| && m[i + 1].role == Assistant && m[i].content != [] && Trimmed(m[i].content)
    ensures m[i].role == Assistant ==> i > 0 && m[i - 1].role == User
  {
    WellFormedIffPositional(m);
    assert m[i].role == RoleAt(i) && StrippedIfUser(m[i]);
    if i % 2 == 0 {
      assert m[i + 1].role == RoleAt(i + 1);
    } else {
      assert m[i - 1].role == RoleAt(i - 1);
    }
  }

  /** Appending one exchange whose query is stripped and non-empty keeps the
      transcript well formed. */
  lemma {:induction false} AppendExchangeWellFormed(m: seq<Turn>, query: string, answer: string)
    requires WellFormed(m)
    requires query != [] && Trimmed(query)
    ensures WellFormed(m + Exchange(query, answer))
    decreases |m|
  {
    var e := Exchange(query, answer);
    if m == [] {
      assert m + e == e && e[2..] == [];
    } else {
      assert (m + e)[2..] == m[2..] + e;
      AppendExchangeWellFormed(m[2..], query, answer);
    }
  }
}
