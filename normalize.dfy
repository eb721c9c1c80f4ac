/** `prepare_messages`: the normalisation that makes a list of wire messages
    acceptable to the Anthropic Messages API, which rejects two consecutive
    turns of one role, a conversation that does not open with a user turn,
    and one that ends with an assistant turn (it would continue it).

    `Consolidate` and `Prepared` are the specification, written as folds;
    `PrepareMessages` is the loop of the source, proved to compute `Prepared`.
    The lemmas say what `Prepared` means: a well-formed conversation, made of
    the input's content in order, one message per maximal same-role run, with
    a placeholder turn added only where the structure needs one. */
module Normalize {
  import opened Wrappers
  import opened Wire

  const LISTENING: string := "[listening]"

  /** The synthetic user turn inserted to satisfy the structure. */
  const PLACEHOLDER: Message := Message(User, [Text(LISTENING)])

  function Last<T>(s: seq<T>): T
    requires |s| > 0
  {
    s[|s| - 1]
  }

  function AllButLast<T>(s: seq<T>): seq<T>
    requires |s| > 0
  {
    s[..|s| - 1]
  }

  /** No two consecutive messages share a role. */
  predicate Alternates(s: seq<Message>) {
    forall i | 1 <= i < |s| :: s[i - 1].role != s[i].role
  }

  /** What the wire protocol accepts: at least one message, a user turn
      first, no assistant turn last, roles alternating. */
  predicate WellFormed(s: seq<Message>) {
    && |s| > 0
    && s[0].role == User
    && Last(s).role != Assistant
    && Alternates(s)
  }

  /** The content blocks of a conversation, message after message. */
  function AllContent(s: seq<Message>): seq<MessageContent> {
    if s == [] then [] else AllContent(AllButLast(s)) + Last(s).content
  }

  /** The number of maximal same-role runs: the positions where a run ends. */
  function Runs(s: seq<Message>): nat {
    if s == [] then 0
    else (if |s| == 1 || s[0].role != s[1].role then 1 else 0) + Runs(s[1..])
  }

  /** One turn of the consolidation loop: a message of the same role as the
      last one so far is appended to its content; any other is pushed. */
  function Absorb(acc: seq<Message>, m: Message): seq<Message> {
    if acc != [] && Last(acc).role == m.role
    then AllButLast(acc) + [Message(Last(acc).role, Last(acc).content + m.content)]
    else acc + [m]
  }

  /** The first loop of the source, as a fold over the input. It never
      lengthens the list, is empty only for empty input, keeps the first and
      last roles, and leaves no two adjacent messages with one role. */
  function Consolidate(ms: seq<Message>): (r: seq<Message>)
    ensures |r| <= |ms|
    ensures r == [] <==> ms == []
    ensures ms != [] ==> r[0].role == ms[0].role && Last(r).role == Last(ms).role
    ensures Alternates(r)
  {
    if ms == [] then [] else Absorb(Consolidate(AllButLast(ms)), Last(ms))
  }

  /** The whole of `prepare_messages`: consolidate, then put a placeholder in
      front unless the list starts with a user turn, then append one if the
      list ends with an assistant turn. */
  function Prepared(ms: seq<Message>): seq<Message> {
    var c := Consolidate(ms);
    var led := if c == [] || c[0].role != User then [PLACEHOLDER] + c else c;
    if led != [] && Last(led).role == Assistant then led + [PLACEHOLDER] else led
  }

  /** The source's loop over a mutable list, with its `last_role` variable
      and its pop-extend-push merge. The pop cannot fail (the source's
      "should never happen" error): the index below is proved in range. */
  method PrepareMessages(messages: seq<Message>) returns (consolidated: seq<Message>)
    ensures consolidated == Prepared(messages)
    ensures WellFormed(consolidated)
  {
    consolidated := [];
    var lastRole: Option<Role> := None;
    for i := 0 to |messages|
      invariant consolidated == Consolidate(messages[..i])
      invariant lastRole == if i == 0 then None else Some(messages[i - 1].role)
    {
      var message := messages[i];
      var thisRole := message.role;
      assert AllButLast(messages[..i + 1]) == messages[..i];
      match lastRole {
        case Some(role) =>
          if role == thisRole {
            var lastMessage := consolidated[|consolidated| - 1];
            consolidated := consolidated[..|consolidated| - 1];
            lastMessage := lastMessage.(content := lastMessage.content + message.content);
            consolidated := consolidated + [lastMessage];
          } else {
            consolidated := consolidated + [message];
          }
        case None =>
          consolidated := consolidated + [message];
      }
      lastRole := Some(thisRole);
    }
    assert messages[..|messages|] == messages;
    if consolidated == [] || consolidated[0].role != User {
      consolidated := [PLACEHOLDER] + consolidated;
    }
    if consolidated != [] && consolidated[|consolidated| - 1].role == Assistant {
      consolidated := consolidated + [PLACEHOLDER];
    }
    PreparedWellFormed(messages);
  }

  // ---------------------------------------------------------------------
  // Structure

  /** A placeholder goes in front exactly when the input is empty or opens
      with an assistant turn, and at the end exactly when the input closes
      with an assistant turn; in between is the consolidated input. */
  lemma PreparedShape(ms: seq<Message>)
    ensures Prepared(ms) ==
      (if ms == [] || ms[0].role == Assistant then [PLACEHOLDER] else [])
      + Consolidate(ms)
      + (if ms != [] && Last(ms).role == Assistant then [PLACEHOLDER] else [])
  {
    var c := Consolidate(ms);
    if ms == [] {
      assert c == [];
      assert Prepared(ms) == [PLACEHOLDER];
    } else {
      assert c != [] && c[0].role == ms[0].role && Last(c).role == Last(ms).role;
      var front: seq<Message> := if ms[0].role == Assistant then [PLACEHOLDER] else [];
      var back: seq<Message> := if Last(ms).role == Assistant then [PLACEHOLDER] else [];
      var led := front + c;
      assert led == if c == [] || c[0].role != User then [PLACEHOLDER] + c else c;
      assert Last(led) == Last(c);
      assert Prepared(ms) == led + back;
    }
  }

  /** Whatever the input, the output is a conversation the API accepts. */
  lemma PreparedWellFormed(ms: seq<Message>)
    ensures WellFormed(Prepared(ms))
  {
    var c := Consolidate(ms);
    var led := if c == [] || c[0].role != User then [PLACEHOLDER] + c else c;
    assert Alternates(led) by {
      if c != [] && c[0].role != User {
        forall i | 1 <= i < |led| ensures led[i - 1].role != led[i].role {
          if i > 1 {
            assert led[i - 1] == c[i - 2] && led[i] == c[i - 1];
          }
        }
      }
    }
    assert led[0].role == User;
    if Last(led).role == Assistant {
      var out := led + [PLACEHOLDER];
      forall i | 1 <= i < |out| ensures out[i - 1].role != out[i].role {
        if i < |led| {
          assert out[i - 1] == led[i - 1] && out[i] == led[i];
        }
      }
    }
  }

  /** An already well-formed conversation is sent unchanged. */
  lemma PreparedKeepsWellFormed(ms: seq<Message>)
    requires WellFormed(ms)
    ensures Prepared(ms) == ms
  {
    ConsolidateKeepsAlternating(ms);
    PreparedShape(ms);
  }

  /** Normalising twice is normalising once. */
  lemma PreparedIdempotent(ms: seq<Message>)
    ensures Prepared(Prepared(ms)) == Prepared(ms)
  {
    PreparedWellFormed(ms);
    PreparedKeepsWellFormed(Prepared(ms));
  }

  // ---------------------------------------------------------------------
  // Content

  lemma {:induction false} AllContentAppend(a: seq<Message>, b: seq<Message>)
    ensures AllContent(a + b) == AllContent(a) + AllContent(b)
    decreases |b|
  {
    if b == [] {
      assert a + b == a;
    } else {
      assert AllButLast(a + b) == a + AllButLast(b);
      AllContentAppend(a, AllButLast(b));
    }
  }

  /** Consolidation keeps every content block, in the original order. */
  lemma {:induction false} ConsolidateKeepsContent(ms: seq<Message>)
    ensures AllContent(Consolidate(ms)) == AllContent(ms)
    decreases |ms|
  {
    if ms != [] {
      var acc := Consolidate(AllButLast(ms));
      var m := Last(ms);
      ConsolidateKeepsContent(AllButLast(ms));
      if acc != [] && Last(acc).role == m.role {
        var merged := Message(Last(acc).role, Last(acc).content + m.content);
        AllContentAppend(AllButLast(acc), [merged]);
        assert AllButLast(acc) + [Last(acc)] == acc;
        AllContentAppend(AllButLast(acc), [Last(acc)]);
        assert AllContent([merged]) == merged.content;
        assert AllContent([Last(acc)]) == Last(acc).content;
      } else {
        AllContentAppend(acc, [m]);
        assert AllContent([m]) == m.content;
      }
    }
  }

  /** The output's content is the input's, with the placeholder text added
      at the ends exactly where a placeholder turn was added. */
  lemma PreparedKeepsContent(ms: seq<Message>)
    ensures AllContent(Prepared(ms)) ==
      (if ms == [] || ms[0].role == Assistant then [Text(LISTENING)] else [])
      + AllContent(ms)
      + (if ms != [] && Last(ms).role == Assistant then [Text(LISTENING)] else [])
  {
    var lead := if ms == [] || ms[0].role == Assistant then [PLACEHOLDER] else [];
    var trail := if ms != [] && Last(ms).role == Assistant then [PLACEHOLDER] else [];
    var c := Consolidate(ms);
    PreparedShape(ms);
    AllContentAppend(lead, c);
    AllContentAppend(lead + c, trail);
    ConsolidateKeepsContent(ms);
    assert AllContent([PLACEHOLDER]) == [Text(LISTENING)];
  }

  // ---------------------------------------------------------------------
  // Merging

  lemma {:induction false} RunsSnoc(s: seq<Message>, m: Message)
    ensures Runs(s + [m]) == Runs(s) + (if s == [] || Last(s).role != m.role then 1 else 0)
    decreases |s|
  {
    if s != [] {
      assert (s + [m])[1..] == s[1..] + [m];
      RunsSnoc(s[1..], m);
    }
  }

  /** One message per maximal same-role run of the input. */
  lemma {:induction false} ConsolidateCountsRuns(ms: seq<Message>)
    ensures |Consolidate(ms)| == Runs(ms)
    decreases |ms|
  {
    if ms != [] {
      assert AllButLast(ms) + [Last(ms)] == ms;
      ConsolidateCountsRuns(AllButLast(ms));
      RunsSnoc(AllButLast(ms), Last(ms));
    }
  }

  /** A run of messages of one role becomes one message of that role holding
      all their content blocks in order. */
  lemma {:induction false} ConsolidateMergesRun(ms: seq<Message>, role: Role)
    requires ms != []
    requires forall i | 0 <= i < |ms| :: ms[i].role == role
    ensures Consolidate(ms) == [Message(role, AllContent(ms))]
    decreases |ms|
  {
    var p := AllButLast(ms);
    if p == [] {
      assert ms == [Last(ms)];
      assert AllContent(ms) == Last(ms).content;
    } else {
      ConsolidateMergesRun(p, role);
      assert forall i | 0 <= i < |p| :: p[i].role == role by {
        forall i | 0 <= i < |p| ensures p[i].role == role {
          assert p[i] == ms[i];
        }
      }
      assert Last(Consolidate(p)).role == role;
    }
  }

  lemma AbsorbAfter(x: seq<Message>, y: seq<Message>, m: Message)
    requires y != []
    ensures Absorb(x + y, m) == x + Absorb(y, m)
  {
    assert Last(x + y) == Last(y);
    assert AllButLast(x + y) == x + AllButLast(y);
  }

  /** Where the role changes, consolidation works on each side separately. */
  lemma {:induction false} ConsolidateSplitsAtRoleChange(a: seq<Message>, b: seq<Message>)
    requires a != [] && b != []
    requires Last(a).role != b[0].role
    ensures Consolidate(a + b) == Consolidate(a) + Consolidate(b)
    decreases |b|
  {
    assert AllButLast(a + b) == a + AllButLast(b);
    assert Last(a + b) == Last(b);
    if |b| == 1 {
      assert a + AllButLast(b) == a;
    } else {
      ConsolidateSplitsAtRoleChange(a, AllButLast(b));
      AbsorbAfter(Consolidate(a), Consolidate(AllButLast(b)), Last(b));
    }
  }

  /** A list whose roles already alternate is left as it is. */
  lemma {:induction false} ConsolidateKeepsAlternating(ms: seq<Message>)
    requires Alternates(ms)
    ensures Consolidate(ms) == ms
    decreases |ms|
  {
    if ms != [] {
      var p := AllButLast(ms);
      assert Alternates(p) by {
        forall i | 1 <= i < |p| ensures p[i - 1].role != p[i].role {
          assert p[i - 1] == ms[i - 1] && p[i] == ms[i];
        }
      }
      ConsolidateKeepsAlternating(p);
      assert p + [Last(ms)] == ms;
    }
  }

  // ---------------------------------------------------------------------
  // The source's examples

  lemma PreparedEmpty()
    ensures Prepared([]) == [PLACEHOLDER]
  {
  }

  lemma PreparedSingleUser(m: Message)
    requires m.role == User
    ensures Prepared([m]) == [m]
  {
    PreparedKeepsWellFormed([m]);
  }

  /** User "hi", user "there", assistant "yo" is sent as one user turn with
      both texts, the assistant turn, and a placeholder user turn. */
  lemma PreparedMergesAndCloses()
    ensures
      Prepared([Message(User, [Text("hi")]), Message(User, [Text("there")]), Message(Assistant, [Text("yo")])])
      == [Message(User, [Text("hi"), Text("there")]), Message(Assistant, [Text("yo")]), PLACEHOLDER]
  {
    var ms := [Message(User, [Text("hi")]), Message(User, [Text("there")]), Message(Assistant, [Text("yo")])];
    assert AllButLast(ms) == ms[..2];
    assert AllButLast(ms[..2]) == ms[..1];
    assert AllButLast(ms[..1]) == [];
    assert Consolidate(ms[..1]) == [Message(User, [Text("hi")])];
    assert Last(ms[..2]) == Message(User, [Text("there")]);
    assert [Text("hi")] + [Text("there")] == [Text("hi"), Text("there")];
    assert Consolidate(ms[..2]) == [Message(User, [Text("hi"), Text("there")])];
  }
}
