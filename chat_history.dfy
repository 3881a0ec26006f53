/**
 * The conversation history handed to the gateway (App.tsx, the
 * `filter`/`map` in `handleSendMessage`): every message whose content
 * mentions a JSON parsing error is dropped, every other one becomes a turn
 * with its role and a single text part.
 */
module ChatHistory {
  import opened Types
  import opened JsString

  /** The marker that keeps a message out of the history. */
  const ParseErrorMarker: string := "JSON Parsing Error"

  datatype Part = Part(text: string)

  /** One prior turn as the gateway receives it. */
  datatype HistoryTurn = HistoryTurn(role: Role, parts: seq<Part>)

  predicate IsMarked(m: ChatMessage) {
    Includes(m.content, ParseErrorMarker)
  }

  function ToTurn(m: ChatMessage): HistoryTurn {
    HistoryTurn(m.role, [Part(m.content)])
  }

  /** `messages.filter(m => !m.content.includes(marker))` */
  function Unmarked(msgs: seq<ChatMessage>): (r: seq<ChatMessage>)
    ensures |r| <= |msgs|
    ensures forall k :: 0 <= k < |r| ==> !IsMarked(r[k])
  {
    if msgs == [] then []
    else if IsMarked(msgs[0]) then Unmarked(msgs[1..])
    else [msgs[0]] + Unmarked(msgs[1..])
  }

  /** `.map(m => ({ role: m.role, parts: [{ text: m.content }] }))` */
  function ToTurns(msgs: seq<ChatMessage>): (r: seq<HistoryTurn>)
    ensures |r| == |msgs|
    ensures forall k :: 0 <= k < |msgs| ==> r[k] == ToTurn(msgs[k])
  {
    if msgs == [] then [] else [ToTurn(msgs[0])] + ToTurns(msgs[1..])
  }

  function History(msgs: seq<ChatMessage>): (r: seq<HistoryTurn>)
    ensures forall k :: 0 <= k < |r| ==> |r[k].parts| == 1 && !Includes(r[k].parts[0].text, ParseErrorMarker)
  {
    var kept := Unmarked(msgs);
    UnmarkedMembers(msgs);
    assert forall k :: 0 <= k < |kept| ==> kept[k] in kept;
    ToTurns(kept)
  }

  lemma {:induction false} UnmarkedAppend(a: seq<ChatMessage>, b: seq<ChatMessage>)
    ensures Unmarked(a + b) == Unmarked(a) + Unmarked(b)
  {
    if a != [] {
      assert (a + b)[1..] == a[1..] + b;
      UnmarkedAppend(a[1..], b);
    } else {
      assert a + b == b;
    }
  }

  lemma {:induction false} ToTurnsAppend(a: seq<ChatMessage>, b: seq<ChatMessage>)
    ensures ToTurns(a + b) == ToTurns(a) + ToTurns(b)
  {
    if a != [] {
      assert (a + b)[1..] == a[1..] + b;
      ToTurnsAppend(a[1..], b);
    } else {
      assert a + b == b;
    }
  }

  /**
   * The history of a concatenation is the concatenation of the histories:
   * the filter keeps the relative order of the messages it keeps.
   */
  lemma HistoryAppend(a: seq<ChatMessage>, b: seq<ChatMessage>)
    ensures History(a + b) == History(a) + History(b)
  {
    UnmarkedAppend(a, b);
    ToTurnsAppend(Unmarked(a), Unmarked(b));
  }

  /** Appending one message adds its turn to the history unless it is marked. */
  lemma HistorySnoc(msgs: seq<ChatMessage>, m: ChatMessage)
    ensures History(msgs + [m]) == History(msgs) + (if IsMarked(m) then [] else [ToTurn(m)])
  {
    HistoryAppend(msgs, [m]);
    assert [m][1..] == [];
    assert Unmarked([m]) == if IsMarked(m) then [] else [m];
  }

  lemma {:induction false} UnmarkedMembers(msgs: seq<ChatMessage>)
    ensures forall m :: m in Unmarked(msgs) <==> m in msgs && !IsMarked(m)
  {
    if msgs != [] {
      UnmarkedMembers(msgs[1..]);
      assert msgs == [msgs[0]] + msgs[1..];
    }
  }

  /**
   * A turn is in the history exactly when it is the turn of some message
   * that does not mention the parse-error marker.
   */
  lemma HistoryKeepsExactlyUnmarked(msgs: seq<ChatMessage>, t: HistoryTurn)
    ensures t in History(msgs) <==> exists m :: m in msgs && !IsMarked(m) && t == ToTurn(m)
  {
    var kept := Unmarked(msgs);
    UnmarkedMembers(msgs);
    if t in History(msgs) {
      var k :| 0 <= k < |History(msgs)| && History(msgs)[k] == t;
      assert kept[k] in kept;
    }
    if exists m :: m in msgs && !IsMarked(m) && t == ToTurn(m) {
      var m :| m in msgs && !IsMarked(m) && t == ToTurn(m);
      assert m in kept;
      var k :| 0 <= k < |kept| && kept[k] == m;
      assert History(msgs)[k] == t;
    }
  }

  /** Nothing is dropped exactly when no message is marked. */
  lemma {:induction false} HistoryKeepsAllIffNoneMarked(msgs: seq<ChatMessage>)
    ensures |History(msgs)| <= |msgs|
    ensures |History(msgs)| == |msgs| <==> forall i :: 0 <= i < |msgs| ==> !IsMarked(msgs[i])
  {
    if msgs != [] {
      HistoryKeepsAllIffNoneMarked(msgs[1..]);
      HistoryAppend([msgs[0]], msgs[1..]);
      assert [msgs[0]] + msgs[1..] == msgs;
      assert History([msgs[0]]) == if IsMarked(msgs[0]) then [] else [ToTurn(msgs[0])];
      assert forall i :: 1 <= i < |msgs| ==> msgs[i] == msgs[1..][i - 1];
    }
  }
}
