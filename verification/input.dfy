/** The message composer (components/main/MessageInput.tsx): the submit
    guard, the trimming of the text handed to the send handler, and the
    disabled state of the send button. */
module MessageInput {
  import opened Common

  /** The characters `String.prototype.trim` removes: ECMAScript WhiteSpace
      (tab, vertical tab, form feed, space, no-break space, byte-order mark
      and the space separators) and LineTerminator (LF, CR, LS, PS). */
  const TrimmableCodes: set<int> :=
    {0x09, 0x0A, 0x0B, 0x0C, 0x0D, 0x20, 0xA0, 0x1680,
     0x2000, 0x2001, 0x2002, 0x2003, 0x2004, 0x2005, 0x2006, 0x2007, 0x2008, 0x2009, 0x200A,
     0x2028, 0x2029, 0x202F, 0x205F, 0x3000, 0xFEFF}

  predicate IsTrimmable(c: char)
  {
    c as int in TrimmableCodes
  }

  predicate AllTrimmable(s: string)
  {
    forall i :: 0 <= i < |s| ==> IsTrimmable(s[i])
  }

  /** Drops leading trimmable characters. */
  function TrimStart(s: string): (r: string)
    ensures |r| <= |s| && r == s[|s| - |r|..]
    ensures AllTrimmable(s[..|s| - |r|])
    ensures |r| > 0 ==> !IsTrimmable(r[0])
  {
    if |s| > 0 && IsTrimmable(s[0]) then
      var r := TrimStart(s[1..]);
      assert s[1..][..|s| - 1 - |r|] == s[1..|s| - |r|];
      r
    else s
  }

  /** Drops trailing trimmable characters. */
  function TrimEnd(s: string): (r: string)
    ensures |r| <= |s| && r == s[..|r|]
    ensures AllTrimmable(s[|r|..])
    ensures |r| > 0 ==> !IsTrimmable(r[|r| - 1])
  {
    if |s| > 0 && IsTrimmable(s[|s| - 1]) then
      var r := TrimEnd(s[..|s| - 1]);
      assert s[..|s| - 1][|r|..] == s[|r|..|s| - 1];
      r
    else s
  }

  /** `content.trim()`: the text between the first and last character that
      is not trimmable; everything cut off on either side is trimmable. */
  function Trim(s: string): (r: string)
    ensures exists i :: 0 <= i <= |s| - |r| && r == s[i..i + |r|]
                        && AllTrimmable(s[..i]) && AllTrimmable(s[i + |r|..])
    ensures |r| > 0 ==> !IsTrimmable(r[0]) && !IsTrimmable(r[|r| - 1])
    ensures r == "" <==> AllTrimmable(s)
  {
    var a := TrimStart(s);
    var r := TrimEnd(a);
    CutBothEnds(s, a, r);
    r
  }

  /** Cutting trimmable characters off the front (giving `a`) and then off
      the back (giving `r`) leaves an infix of `s` flanked by trimmable
      characters, and leaves nothing exactly when `s` is all trimmable. */
  lemma CutBothEnds(s: string, a: string, r: string)
    requires |a| <= |s| && a == s[|s| - |a|..] && AllTrimmable(s[..|s| - |a|])
    requires |a| > 0 ==> !IsTrimmable(a[0])
    requires |r| <= |a| && r == a[..|r|] && AllTrimmable(a[|r|..])
    requires |r| > 0 ==> !IsTrimmable(r[|r| - 1])
    ensures exists i :: 0 <= i <= |s| - |r| && r == s[i..i + |r|]
                        && AllTrimmable(s[..i]) && AllTrimmable(s[i + |r|..])
    ensures |r| > 0 ==> !IsTrimmable(r[0]) && !IsTrimmable(r[|r| - 1])
    ensures r == "" <==> AllTrimmable(s)
  {
    var i := |s| - |a|;
    var j := i + |r|;
    assert a[..|r|] == s[i..j];
    assert a[|r|..] == s[j..];
    assert 0 <= i <= |s| - |r| && r == s[i..i + |r|] && AllTrimmable(s[..i]) && AllTrimmable(s[i + |r|..]);
    if r == "" {
      assert s == s[..i] + a;
    } else {
      assert s[i] == r[0];
    }
  }

  /** Trimming twice is trimming once. */
  lemma TrimIdempotent(s: string)
    ensures Trim(Trim(s)) == Trim(s)
  {
    var t := Trim(s);
    var u := Trim(t);
    if |t| > 0 {
      var i :| 0 <= i <= |t| - |u| && u == t[i..i + |u|] && AllTrimmable(t[..i]) && AllTrimmable(t[i + |u|..]);
      assert i == 0 && i + |u| == |t|;
    }
  }

  /** The guard of `handleSubmit`: there is text after trimming or a file is
      attached, and no send is in progress. */
  predicate CanSubmit(content: string, hasAttachment: bool, isSending: bool)
  {
    (Trim(content) != "" || hasAttachment) && !isSending
  }

  datatype Submission = Submission(sent: Option<string>, content: string)

  /** `handleSubmit`: hands the trimmed text to the send handler and clears
      the box when the guard holds; otherwise does nothing. */
  function Submit(content: string, hasAttachment: bool, isSending: bool): (r: Submission)
    ensures r.sent.Some? <==> ((exists i :: 0 <= i < |content| && !IsTrimmable(content[i])) || hasAttachment) && !isSending
    ensures isSending ==> r.sent.None?
    ensures r.sent.Some? ==> r.sent.value == Trim(content) && r.content == ""
    ensures r.sent.None? ==> r.content == content
  {
    if CanSubmit(content, hasAttachment, isSending) then Submission(Some(Trim(content)), "")
    else Submission(None, content)
  }

  /** The `disabled` expression of the send button. */
  predicate SendDisabled(content: string, hasAttachment: bool, isSending: bool)
  {
    isSending || (Trim(content) == "" && !hasAttachment)
  }

  /** The button is disabled exactly when a submit would be ignored. */
  lemma DisabledIffSubmitIgnored(content: string, hasAttachment: bool, isSending: bool)
    ensures SendDisabled(content, hasAttachment, isSending) <==> Submit(content, hasAttachment, isSending).sent.None?
  {
  }
}
