/**
 * The chat panel of `ChatPanel.tsx`: the text being typed and the list of
 * messages shown. Sending appends the typed text under the name "You" and
 * clears the input, unless the text is empty after trimming white space.
 */
module ChatPanel {

  import opened MockData

  /** The characters JavaScript's `String.prototype.trim` removes (white space and line terminators). */
  predicate IsWhiteSpace(c: char)
    ensures IsWhiteSpace(c) ==> !('0' <= c <= '9' || 'a' <= c <= 'z' || 'A' <= c <= 'Z')
  {
    || c == '\t' || c == '\n' || c == '\U{000B}' || c == '\U{000C}' || c == '\r' || c == ' '
    || c == '\U{00A0}' || c == '\U{1680}' || ('\U{2000}' <= c <= '\U{200A}')
    || c == '\U{2028}' || c == '\U{2029}' || c == '\U{202F}' || c == '\U{205F}'
    || c == '\U{3000}' || c == '\U{FEFF}'
  }

  predicate IsBlank(s: string) {
    forall i :: 0 <= i < |s| ==> IsWhiteSpace(s[i])
  }

  /** Drops leading white space: what is left is a suffix that starts with a non-blank character. */
  function TrimStart(s: string): (t: string)
    ensures |t| <= |s| && t == s[|s| - |t|..]
    ensures t == [] || !IsWhiteSpace(t[0])
    ensures forall i :: 0 <= i < |s| - |t| ==> IsWhiteSpace(s[i])
  {
    if s != [] && IsWhiteSpace(s[0]) then
      var t := TrimStart(s[1..]);
      assert forall i :: 1 <= i < |s| - |t| ==> s[i] == s[1..][i - 1];
      t
    else s
  }

  /** Drops trailing white space: what is left is a prefix that ends with a non-blank character. */
  function TrimEnd(s: string): (t: string)
    ensures t <= s
    ensures t == [] || !IsWhiteSpace(t[|t| - 1])
    ensures forall i :: |t| <= i < |s| ==> IsWhiteSpace(s[i])
  {
    if s != [] && IsWhiteSpace(s[|s| - 1]) then TrimEnd(s[..|s| - 1]) else s
  }

  /**
   * `message.trim()`: a slice of the message (a prefix of the suffix that
   * `TrimStart` leaves) that neither starts nor ends with white space.
   */
  function Trim(s: string): (t: string)
    ensures |t| <= |s| && t <= TrimStart(s)
    ensures t == [] || (!IsWhiteSpace(t[0]) && !IsWhiteSpace(t[|t| - 1]))
  {
    TrimEnd(TrimStart(s))
  }

  /** `!message.trim()` holds exactly for the strings made only of white space, the empty one included. */
  lemma TrimEmptyIffBlank(s: string)
    ensures Trim(s) == "" <==> IsBlank(s)
  {
  }

  class Chat {
    var message: string
    var messages: seq<ChatMessage>

    constructor ()
      ensures message == "" && messages == MockChatMessages
    {
      message := "";
      messages := MockChatMessages;
    }

    /** The input's `onChange`: the typed text replaces the input. */
    method SetMessage(text: string)
      modifies this`message
      ensures message == text
    {
      message := text;
    }

    /**
     * `handleSend`. The clock supplies the new message's `id` and
     * `timestamp`; here they are parameters.
     */
    method HandleSend(id: string, timestamp: string)
      modifies this
      ensures IsBlank(old(message)) ==> message == old(message) && messages == old(messages)
      ensures !IsBlank(old(message)) ==>
                && messages == old(messages) + [ChatMessage(id, "You", old(message), timestamp)]
                && message == ""
      ensures messages == SendOne(old(messages), Typed(old(message), id, timestamp))
    {
      TrimEmptyIffBlank(message);
      if Trim(message) == "" {
        return;
      }
      messages := messages + [ChatMessage(id, "You", message, timestamp)];
      message := "";
    }
  }

  /** One message typed into the input, with the `id` and `timestamp` the clock gives it when sent. */
  datatype Typed = Typed(text: string, id: string, timestamp: string)

  /** The message `handleSend` appends for `t`: none when the text trims to "". */
  function Shown(t: Typed): (shown: seq<ChatMessage>)
    ensures shown == [] <==> IsBlank(t.text)
    ensures |shown| <= 1
  {
    TrimEmptyIffBlank(t.text);
    if Trim(t.text) == "" then [] else [ChatMessage(t.id, "You", t.text, t.timestamp)]
  }

  /** What `handleSend` does to the list when the input holds `t.text`. */
  function SendOne(messages: seq<ChatMessage>, t: Typed): (after: seq<ChatMessage>)
    ensures messages <= after
    ensures |after| == |messages| + (if IsBlank(t.text) then 0 else 1)
  {
    messages + Shown(t)
  }

  /** The list after typing and sending each of `typed` in turn. */
  function SendAll(messages: seq<ChatMessage>, typed: seq<Typed>): seq<ChatMessage>
    decreases |typed|
  {
    if typed == [] then messages else SendAll(SendOne(messages, typed[0]), typed[1..])
  }

  /** The messages that a run of sends shows: one from "You" per non-blank text, as typed. */
  function Delivered(typed: seq<Typed>): (shown: seq<ChatMessage>)
    ensures |shown| <= |typed|
    ensures forall i :: 0 <= i < |shown| ==> shown[i].username == "You" && !IsBlank(shown[i].message)
  {
    if typed == [] then []
    else Shown(typed[0]) + Delivered(typed[1..])
  }

  /**
   * Any run of sends keeps the earlier history in place and appends exactly
   * the non-blank texts, in the order they were sent and untrimmed.
   */
  lemma {:induction false} SendAllAppendsDelivered(messages: seq<ChatMessage>, typed: seq<Typed>)
    ensures SendAll(messages, typed) == messages + Delivered(typed)
    decreases |typed|
  {
    if typed != [] {
      var t, rest := typed[0], typed[1..];
      assert SendAll(messages, typed) == SendAll(messages + Shown(t), rest);
      assert Delivered(typed) == Shown(t) + Delivered(rest);
      SendAllAppendsDelivered(messages + Shown(t), rest);
      assert (messages + Shown(t)) + Delivered(rest) == messages + (Shown(t) + Delivered(rest));
    }
  }

  /** A message of spaces is not sent, while one with surrounding spaces is sent as typed. */
  lemma SendExamples()
    ensures IsBlank("   ") && IsBlank("")
    ensures !IsBlank(" hi ")
  {
    assert " hi "[1] == 'h';
  }
}
