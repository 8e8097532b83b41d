/**
 * The message box: `handleSubmit` trims the input, refuses an empty message or
 * a submit while a reply is loading, and otherwise sends the trimmed text and
 * clears the box. The send button is disabled under the same condition.
 */
module ChatInput {
  import opened Wrappers

  /** The characters `String.prototype.trim` removes: ECMAScript white space and line terminators. */
  predicate IsTrimmable(c: char)
  {
    || c == '\t' || c == '\U{000B}' || c == '\U{000C}' || c == ' ' || c == '\U{00A0}' || c == '\U{FEFF}'
    || c == '\U{1680}' || ('\U{2000}' <= c <= '\U{200A}') || c == '\U{202F}' || c == '\U{205F}' || c == '\U{3000}'
    || c == '\n' || c == '\r' || c == '\U{2028}' || c == '\U{2029}'
  }

  /** How many white-space characters `s` starts with. */
  function LeadingSpace(s: string): (n: nat)
    ensures n <= |s|
    ensures forall k :: 0 <= k < n ==> IsTrimmable(s[k])
    ensures n < |s| ==> !IsTrimmable(s[n])
  {
    if s != [] && IsTrimmable(s[0]) then 1 + LeadingSpace(s[1..]) else 0
  }

  /** Where the white space that `s` ends with begins. */
  function TrailingSpace(s: string): (n: nat)
    ensures n <= |s|
    ensures forall k :: n <= k < |s| ==> IsTrimmable(s[k])
    ensures 0 < n ==> !IsTrimmable(s[n - 1])
  {
    if s != [] && IsTrimmable(s[|s| - 1]) then TrailingSpace(s[..|s| - 1]) else |s|
  }

  /** `input.trim()`: drop the leading, then the trailing white space. */
  function Trim(s: string): (r: string)
    ensures |r| <= |s|
    ensures r == [] || (!IsTrimmable(r[0]) && !IsTrimmable(r[|r| - 1]))
  {
    var t := s[LeadingSpace(s)..];
    t[..TrailingSpace(t)]
  }

  /**
   * The trimmed text is the slice of the input between its leading and its
   * trailing white space, with no white space left at either end.
   */
  lemma TrimIsInnerSlice(s: string) returns (i: nat, j: nat)
    ensures i <= j <= |s| && Trim(s) == s[i..j]
    ensures forall k :: 0 <= k < i ==> IsTrimmable(s[k])
    ensures forall k :: j <= k < |s| ==> IsTrimmable(s[k])
    ensures i < j ==> !IsTrimmable(s[i]) && !IsTrimmable(s[j - 1])
  {
    i := LeadingSpace(s);
    var t := s[i..];
    j := i + TrailingSpace(t);
    forall k | j <= k < |s|
      ensures IsTrimmable(s[k])
    {
      assert s[k] == t[k - i];
    }
    if i < j {
      assert s[j - 1] == t[j - 1 - i];
    }
  }

  /** The trimmed text is empty exactly when the input is all white space. */
  lemma TrimEmptyIffBlank(s: string)
    ensures Trim(s) == [] <==> forall k :: 0 <= k < |s| ==> IsTrimmable(s[k])
  {
    var i, j := TrimIsInnerSlice(s);
  }

  /** Trimming twice is trimming once. */
  lemma TrimIdempotent(s: string)
    ensures Trim(Trim(s)) == Trim(s)
  {
    var i, j := TrimIsInnerSlice(s);
    var r := Trim(s);
    if r != [] {
      assert r[0] == s[i] && r[|r| - 1] == s[j - 1];
      assert LeadingSpace(r) == 0;
      assert TrailingSpace(r) == |r|;
    }
  }

  /** The send button's `disabled` expression. */
  predicate SendDisabled(input: string, isLoading: bool)
  {
    Trim(input) == "" || isLoading
  }

  /** What `handleSubmit` hands to `onSend`, if anything. */
  function Submission(input: string, isLoading: bool): (sent: Option<string>)
    ensures sent.Some? <==> !SendDisabled(input, isLoading)
    ensures sent.Some? ==> sent.value == Trim(input) && sent.value != ""
  {
    var trimmed := Trim(input);
    if trimmed == "" || isLoading then None else Some(trimmed)
  }

  /** A blank message is never sent, whatever the loading state, and nothing is sent while loading. */
  lemma NothingSentWhenBlankOrLoading(input: string, isLoading: bool)
    ensures (forall k :: 0 <= k < |input| ==> IsTrimmable(input[k])) ==> Submission(input, isLoading) == None
    ensures isLoading ==> Submission(input, isLoading) == None
  {
    TrimEmptyIffBlank(input);
  }

  class ChatInputBox {
    var input: string

    constructor ()
      ensures input == ""
    {
      input := "";
    }

    /** The input's `onChange`. */
    method SetInput(value: string)
      modifies this
      ensures input == value
    {
      input := value;
    }

    /** `handleSubmit`: sends the trimmed text and clears the box, or leaves everything as it was. */
    method HandleSubmit(isLoading: bool) returns (sent: Option<string>)
      modifies this
      ensures sent == Submission(old(input), isLoading)
      ensures sent.Some? ==> input == ""
      ensures sent.None? ==> input == old(input)
    {
      var trimmed := Trim(input);
      if trimmed == "" || isLoading {
        return None;
      }
      sent := Some(trimmed);
      input := "";
    }
  }
}
