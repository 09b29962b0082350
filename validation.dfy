/** Validation helpers for pager messaging inputs: RIC format, length, ranges and content. */
module Validation {
  import opened Values

  /** `re.fullmatch(r"\d{7}", ric)`: exactly seven digits. */
  predicate ValidateRicFormat(ric: string)
  {
    |ric| == 7 && AllDigits(ric)
  }

  /** Alphanumeric messages hold at most 80 characters; numeric messages have no limit here. */
  predicate ValidateMessageLength(text: string, messageType: string)
  {
    messageType == "alphanumeric" ==> |text| <= 80
  }

  predicate ValidateFrequencyRange(freq: real)
  {
    1.0 <= freq <= 6000.0
  }

  predicate ValidatePowerRange(power: real)
  {
    0.0 <= power <= 15.0
  }

  predicate ValidateGainRange(gain: real)
  {
    0.0 <= gain <= 47.0
  }

  /** The characters a message of the type may hold: digits and space for numeric, printable ASCII otherwise. */
  predicate Allowed(ch: char, messageType: string)
  {
    if messageType == "numeric" then IsDigit(ch) || ch == ' ' else Printable(ch)
  }

  /** `sanitize_message_text`: the allowed characters of `text`, in order. */
  function SanitizeMessageText(text: string, messageType: string): (clean: string)
    ensures |clean| <= |text|
  {
    if |text| == 0 then ""
    else
      var init := SanitizeMessageText(text[..|text| - 1], messageType);
      var ch := text[|text| - 1];
      if Allowed(ch, messageType) then init + [ch] else init
  }

  /** `validate_message_content`: every character is allowed for the type. */
  predicate ValidateMessageContent(text: string, messageType: string)
  {
    forall i :: 0 <= i < |text| ==> Allowed(text[i], messageType)
  }

  /** `s` can be obtained from `t` by deleting characters. */
  predicate IsSubsequence(s: string, t: string)
    decreases |t|
  {
    if |s| == 0 then true
    else if |t| == 0 then false
    else if s[|s| - 1] == t[|t| - 1] then IsSubsequence(s[..|s| - 1], t[..|t| - 1])
    else IsSubsequence(s, t[..|t| - 1])
  }

  // ---------------------------------------------------------------------------
  // Properties

  lemma SubsequenceSnoc(s: string, t: string, ch: char)
    requires IsSubsequence(s, t)
    ensures IsSubsequence(s + [ch], t + [ch])
  {
    assert (s + [ch])[..|s|] == s;
    assert (t + [ch])[..|t|] == t;
  }

  /** A subsequence of `t` stays one when a character is appended to `t`. */
  lemma {:induction false} SubsequenceExtend(s: string, t: string, ch: char)
    requires IsSubsequence(s, t)
    ensures IsSubsequence(s, t + [ch])
    decreases |t|, 1
  {
    assert (t + [ch])[..|t|] == t;
    if |s| > 0 && s[|s| - 1] == ch {
      SubsequenceDropLast(s, t);
    }
  }

  /** Dropping the last character of `s` keeps it a subsequence. */
  lemma {:induction false} SubsequenceDropLast(s: string, t: string)
    requires 0 < |s| && IsSubsequence(s, t)
    ensures IsSubsequence(s[..|s| - 1], t)
    decreases |t|, 0
  {
    if |t| > 0 {
      var s', t' := s[..|s| - 1], t[..|t| - 1];
      if s[|s| - 1] != t[|t| - 1] {
        SubsequenceDropLast(s, t');
      }
      SubsequenceExtend(s', t', t[|t| - 1]);
      assert t' + [t[|t| - 1]] == t;
    }
  }

  /** Sanitising only deletes characters: the output is a subsequence of the input. */
  lemma {:induction false} SanitizeSubsequence(text: string, messageType: string)
    ensures IsSubsequence(SanitizeMessageText(text, messageType), text)
    decreases |text|
  {
    if |text| > 0 {
      var init := text[..|text| - 1];
      var ch := text[|text| - 1];
      SanitizeSubsequence(init, messageType);
      assert init + [ch] == text;
      if Allowed(ch, messageType) {
        SubsequenceSnoc(SanitizeMessageText(init, messageType), init, ch);
      } else {
        SubsequenceExtend(SanitizeMessageText(init, messageType), init, ch);
      }
    }
  }

  /** Every character sanitising keeps is allowed, so the output always passes content validation. */
  lemma {:induction false} SanitizePasses(text: string, messageType: string)
    ensures ValidateMessageContent(SanitizeMessageText(text, messageType), messageType)
    decreases |text|
  {
    if |text| > 0 {
      SanitizePasses(text[..|text| - 1], messageType);
    }
  }

  /** Text that already passes content validation is left unchanged. */
  lemma {:induction false} SanitizeKeepsValid(text: string, messageType: string)
    requires ValidateMessageContent(text, messageType)
    ensures SanitizeMessageText(text, messageType) == text
    decreases |text|
  {
    if |text| > 0 {
      var init := text[..|text| - 1];
      assert ValidateMessageContent(init, messageType) by {
        forall i | 0 <= i < |init|
          ensures Allowed(init[i], messageType)
        {
          assert init[i] == text[i];
        }
      }
      SanitizeKeepsValid(init, messageType);
      assert init + [text[|text| - 1]] == text;
    }
  }

  /** Sanitising twice is sanitising once. */
  lemma SanitizeIdempotent(text: string, messageType: string)
    ensures SanitizeMessageText(SanitizeMessageText(text, messageType), messageType) == SanitizeMessageText(text, messageType)
  {
    SanitizePasses(text, messageType);
    SanitizeKeepsValid(SanitizeMessageText(text, messageType), messageType);
  }

  /** Sanitising drops exactly the disallowed characters: the output equals the input iff the input is valid. */
  lemma SanitizeChangesInvalid(text: string, messageType: string)
    ensures SanitizeMessageText(text, messageType) == text <==> ValidateMessageContent(text, messageType)
  {
    if ValidateMessageContent(text, messageType) {
      SanitizeKeepsValid(text, messageType);
    } else {
      SanitizePasses(text, messageType);
    }
  }
}
