/** The pure string rules the handlers rely on: Python's `str.strip`,
    `str.isdigit`, the phone check, code normalisation and artifact naming. */
module Strings {

  /** Python's `str.isspace` on one character: the characters `str.strip()`
      removes when called without arguments. */
  predicate IsSpace(c: char) {
    c == ' ' || ('\t' <= c <= '\r') || ('\U{1C}' <= c <= '\U{1F}')
    || c == '\U{85}' || c == '\U{A0}' || c == '\U{1680}'
    || ('\U{2000}' <= c <= '\U{200A}') || c == '\U{2028}' || c == '\U{2029}'
    || c == '\U{202F}' || c == '\U{205F}' || c == '\U{3000}'
  }

  predicate IsAsciiDigit(c: char) {
    '0' <= c <= '9'
  }

  /** Python's `str.isdigit` on one character, for '0'..'9' and a selection
      of the other Unicode digits: the superscript, subscript and circled
      digits and the decimal digits of the main scripts. Python accepts more
      digit characters than these. */
  predicate IsDigit(c: char) {
    IsAsciiDigit(c)
    || c == '\U{B2}' || c == '\U{B3}' || c == '\U{B9}'
    || ('\U{660}' <= c <= '\U{669}') || ('\U{6F0}' <= c <= '\U{6F9}')
    || ('\U{7C0}' <= c <= '\U{7C9}') || ('\U{966}' <= c <= '\U{96F}')
    || ('\U{9E6}' <= c <= '\U{9EF}') || ('\U{A66}' <= c <= '\U{A6F}')
    || ('\U{AE6}' <= c <= '\U{AEF}') || ('\U{B66}' <= c <= '\U{B6F}')
    || ('\U{BE6}' <= c <= '\U{BEF}') || ('\U{C66}' <= c <= '\U{C6F}')
    || ('\U{CE6}' <= c <= '\U{CEF}') || ('\U{D66}' <= c <= '\U{D6F}')
    || ('\U{E50}' <= c <= '\U{E59}') || ('\U{ED0}' <= c <= '\U{ED9}')
    || ('\U{F20}' <= c <= '\U{F29}') || ('\U{1040}' <= c <= '\U{1049}')
    || ('\U{17E0}' <= c <= '\U{17E9}') || ('\U{1810}' <= c <= '\U{1819}')
    || c == '\U{2070}' || ('\U{2074}' <= c <= '\U{2079}')
    || ('\U{2080}' <= c <= '\U{2089}') || ('\U{2460}' <= c <= '\U{2468}')
    || ('\U{FF10}' <= c <= '\U{FF19}')
  }

  /** Python's `str.isdigit` on a string: false on the empty string. */
  predicate IsDigitString(s: string) {
    |s| > 0 && forall i :: 0 <= i < |s| ==> IsDigit(s[i])
  }

  /** Line terminators of Python's universal-newline text reading. */
  predicate IsLineBreak(c: char) {
    c == '\n' || c == '\r'
  }

  predicate NoLineBreak(s: string) {
    forall i :: 0 <= i < |s| ==> !IsLineBreak(s[i])
  }

  /** Number of whitespace characters at the front of `s`. */
  function LeadingSpaces(s: string): (n: nat)
    ensures n <= |s|
    ensures forall i :: 0 <= i < n ==> IsSpace(s[i])
    ensures n == |s| || !IsSpace(s[n])
  {
    if s == [] || !IsSpace(s[0]) then 0 else 1 + LeadingSpaces(s[1..])
  }

  /** Number of whitespace characters at the back of `s`. */
  function TrailingSpaces(s: string): (n: nat)
    ensures n <= |s|
    ensures forall i :: |s| - n <= i < |s| ==> IsSpace(s[i])
    ensures n == |s| || !IsSpace(s[|s| - 1 - n])
  {
    if s == [] || !IsSpace(s[|s| - 1]) then 0 else 1 + TrailingSpaces(s[..|s| - 1])
  }

  /** Python's `s.strip()`. */
  function Strip(s: string): (r: string)
  {
    var t := s[LeadingSpaces(s)..];
    t[..|t| - TrailingSpaces(t)]
  }

  /** `Strip` removes exactly the surrounding whitespace: `s` is the result
      framed by two runs of whitespace, and the result neither starts nor
      ends with whitespace. */
  lemma StripRemovesSurroundingSpace(s: string)
    ensures var a := LeadingSpaces(s);
            a + |Strip(s)| <= |s| && Strip(s) == s[a..a + |Strip(s)|]
            && (forall i :: 0 <= i < a ==> IsSpace(s[i]))
            && (forall i :: a + |Strip(s)| <= i < |s| ==> IsSpace(s[i]))
    ensures Strip(s) == [] || (!IsSpace(Strip(s)[0]) && !IsSpace(Strip(s)[|Strip(s)| - 1]))
  {
    StripFrame(s);
    StripEnds(s);
  }

  lemma StripFrame(s: string)
    ensures var a := LeadingSpaces(s);
            a + |Strip(s)| <= |s| && Strip(s) == s[a..a + |Strip(s)|]
            && (forall i :: a + |Strip(s)| <= i < |s| ==> IsSpace(s[i]))
  {
    var t := s[LeadingSpaces(s)..];
    StripTail(t, TrailingSpaces(t));
  }

  lemma StripEnds(s: string)
    ensures Strip(s) == [] || (!IsSpace(Strip(s)[0]) && !IsSpace(Strip(s)[|Strip(s)| - 1]))
  {
    var t := s[LeadingSpaces(s)..];
    StripTail(t, TrailingSpaces(t));
  }

  /** Cutting a run of `b` trailing whitespace characters off `t`. */
  lemma StripTail(t: string, b: nat)
    requires b == TrailingSpaces(t)
    ensures forall i :: |t| - b <= i < |t| ==> IsSpace(t[i])
    ensures |t| - b == 0 || !IsSpace(t[..|t| - b][|t| - b - 1])
  {
  }

  /** A string with no surrounding whitespace is left as it is by `Strip`. */
  lemma StripTrimmed(s: string)
    requires s == [] || (!IsSpace(s[0]) && !IsSpace(s[|s| - 1]))
    ensures Strip(s) == s
  {
    assert LeadingSpaces(s) == 0;
    assert s[0..] == s;
  }

  /** Python's `s.replace(' ', '')`: removes every ASCII space, and nothing else. */
  function RemoveSpaces(s: string): (r: string)
    ensures |r| <= |s|
    ensures forall i :: 0 <= i < |r| ==> r[i] != ' '
    ensures (forall i :: 0 <= i < |s| ==> s[i] != ' ') ==> r == s
  {
    if s == [] then []
    else if s[0] == ' ' then RemoveSpaces(s[1..])
    else [s[0]] + RemoveSpaces(s[1..])
  }

  /** `RemoveSpaces` keeps every character other than a space, and no other. */
  lemma {:induction false} RemoveSpacesContents(s: string)
    ensures forall c :: c in RemoveSpaces(s) <==> c in s && c != ' '
  {
    if s != [] {
      RemoveSpacesContents(s[1..]);
      assert s == [s[0]] + s[1..];
    }
  }

  /** `RemoveSpaces` keeps every character other than a space as often as it
      occurs, and drops every space. */
  lemma {:induction false} RemoveSpacesMultiset(s: string)
    ensures multiset(RemoveSpaces(s)) == multiset(s)[' ' := 0]
  {
    if s != [] {
      RemoveSpacesMultiset(s[1..]);
      assert s == [s[0]] + s[1..];
    }
  }

  /** `RemoveSpaces` works character by character in order: removing the
      spaces of a concatenation concatenates the results. */
  lemma {:induction false} RemoveSpacesAppend(a: string, b: string)
    ensures RemoveSpaces(a + b) == RemoveSpaces(a) + RemoveSpaces(b)
  {
    if a == [] {
      assert a + b == b;
    } else {
      assert (a + b)[0] == a[0] && (a + b)[1..] == a[1..] + b;
      RemoveSpacesAppend(a[1..], b);
    }
  }

  /** The first and last characters that are not spaces survive `RemoveSpaces`
      at the ends of the result. */
  lemma {:induction false} RemoveSpacesKeepsEnds(s: string)
    requires s != [] && s[0] != ' ' && s[|s| - 1] != ' '
    ensures RemoveSpaces(s) != []
    ensures RemoveSpaces(s)[0] == s[0]
    ensures RemoveSpaces(s)[|RemoveSpaces(s)| - 1] == s[|s| - 1]
  {
    if |s| > 1 {
      var t := s[1..];
      if t[0] == ' ' {
        RemoveSpacesLast(t);
      } else {
        RemoveSpacesKeepsEnds(t);
      }
    }
  }

  lemma {:induction false} RemoveSpacesLast(s: string)
    requires s != [] && s[|s| - 1] != ' '
    ensures RemoveSpaces(s) != [] && RemoveSpaces(s)[|RemoveSpaces(s)| - 1] == s[|s| - 1]
  {
    var t := s[1..];
    if |s| == 1 {
      assert RemoveSpaces(t) == [];
    } else {
      assert t[|t| - 1] == s[|s| - 1];
      RemoveSpacesLast(t);
      var rt := RemoveSpaces(t);
      assert RemoveSpaces(s) == if s[0] == ' ' then rt else [s[0]] + rt;
    }
  }

  /** The verification code handed to sign-in (lonamibots.py:96):
      `text.strip().replace(' ', '')`. It holds no space. */
  function NormaliseCode(text: string): (code: string)
    ensures forall i :: 0 <= i < |code| ==> code[i] != ' '
    ensures |code| <= |Strip(text)|
  {
    RemoveSpaces(Strip(text))
  }

  /** The normalised code holds every character of the stripped text other
      than a space, and no other character. */
  lemma NormaliseCodeContents(text: string)
    ensures forall c :: c in NormaliseCode(text) <==> c in Strip(text) && c != ' '
  {
    RemoveSpacesContents(Strip(text));
  }

  /** The normalised code holds each non-space character of the stripped
      message as often as the message does. */
  lemma NormaliseCodeMultiset(text: string)
    ensures multiset(NormaliseCode(text)) == multiset(Strip(text))[' ' := 0]
  {
    RemoveSpacesMultiset(Strip(text));
  }

  /** The normalised code keeps the order of the stripped message: a message
      split in two normalises to the two parts' space-free texts in turn. */
  lemma NormaliseCodeOrder(text: string, i: nat)
    requires i <= |Strip(text)|
    ensures NormaliseCode(text) == RemoveSpaces(Strip(text)[..i]) + RemoveSpaces(Strip(text)[i..])
  {
    var t := Strip(text);
    assert t == t[..i] + t[i..];
    RemoveSpacesAppend(t[..i], t[i..]);
  }

  /** A code typed in the format the bot asks for (lonamibots.py:84)
      reaches `sign_in` as the digits alone. */
  lemma SpacedCodeNormalised()
    ensures NormaliseCode("1 2 3 4 5") == "12345"
  {
    StripTrimmed("1 2 3 4 5");
    assert "1 2 3 4 5" == "1 " + "2 " + "3 " + "4 " + "5";
    SpacedCodeDigits();
  }

  lemma SpacedCodeDigits()
    ensures RemoveSpaces("1 " + "2 " + "3 " + "4 " + "5") == "12345"
  {
    DigitThenSpace('1');
    DigitThenSpace('2');
    DigitThenSpace('3');
    DigitThenSpace('4');
    assert RemoveSpaces("5") == "5" by { assert "5"[1..] == []; }
    RemoveSpacesAppend("1 ", "2 ");
    RemoveSpacesAppend("1 " + "2 ", "3 ");
    RemoveSpacesAppend("1 " + "2 " + "3 ", "4 ");
    RemoveSpacesAppend("1 " + "2 " + "3 " + "4 ", "5");
  }

  /** A character followed by a space keeps only the character. */
  lemma DigitThenSpace(c: char)
    requires c != ' '
    ensures RemoveSpaces([c, ' ']) == [c]
  {
    assert [c, ' '][1..] == [' '];
    assert [' '][1..] == [];
  }

  /** Normalising a code twice gives the same code as normalising once. */
  lemma NormaliseCodeIdempotent(text: string)
    ensures NormaliseCode(NormaliseCode(text)) == NormaliseCode(text)
  {
    var t := Strip(text);
    var c := RemoveSpaces(t);
    StripRemovesSurroundingSpace(text);
    if t != [] {
      RemoveSpacesKeepsEnds(t);
    }
    StripTrimmed(c);
  }

  /** The phone check of lonamibots.py:57-61 on the already stripped text:
      `phone.startswith('+') and phone[1:].isdigit()`. */
  predicate PhoneAccepted(phone: string) {
    |phone| > 0 && phone[0] == '+' && IsDigitString(phone[1..])
  }

  /** An accepted phone carries no whitespace, so stripping it again changes
      nothing. */
  lemma AcceptedPhoneIsStripped(phone: string)
    requires PhoneAccepted(phone)
    ensures forall i :: 0 <= i < |phone| ==> !IsSpace(phone[i])
    ensures Strip(phone) == phone
  {
    forall i | 0 <= i < |phone|
      ensures !IsSpace(phone[i])
    {
      if i > 0 {
        assert phone[i] == phone[1..][i - 1];
      }
    }
    StripTrimmed(phone);
  }

  /** An accepted phone holds no line break, so it fits on one line of the
      audit log. */
  lemma AcceptedPhoneIsOneLine(phone: string)
    requires PhoneAccepted(phone)
    ensures NoLineBreak(phone)
  {
    forall i | 0 <= i < |phone|
      ensures !IsLineBreak(phone[i])
    {
      if i > 0 {
        assert phone[i] == phone[1..][i - 1];
      }
    }
  }

  /** An accepted phone holds no comma, so its log line splits back into
      exactly four fields. */
  lemma AcceptedPhoneHasNoComma(phone: string)
    requires PhoneAccepted(phone)
    ensures ',' !in phone
  {
    forall i | 0 <= i < |phone|
      ensures phone[i] != ','
    {
      if i > 0 {
        assert phone[i] == phone[1..][i - 1];
      }
    }
  }

  /** The text of `phone[1:]`: the digits after the leading '+'. */
  function PhoneDigits(phone: string): (digits: string)
    requires PhoneAccepted(phone)
  {
    phone[1..]
  }

  const SessionPrefix: string := "business_"
  const SessionExtension: string := ".session"

  /** The session name Telethon is created with (lonamibots.py:73), without
      the directory: `business_` followed by the digits. */
  function SessionBase(phone: string): (base: string)
    requires PhoneAccepted(phone)
  {
    SessionPrefix + PhoneDigits(phone)
  }

  /** The name of the document delivered on success (lonamibots.py:118). */
  function ArtifactName(phone: string): (name: string)
    requires PhoneAccepted(phone)
    ensures EndsWith(name, SessionExtension)
  {
    var name := SessionBase(phone) + SessionExtension;
    assert name[|name| - |SessionExtension|..] == SessionExtension;
    name
  }

  /** The phone is recovered from its artifact name, so two accepted phones
      never share an artifact name. */
  lemma ArtifactNameRecoversPhone(phone: string)
    requires PhoneAccepted(phone)
    ensures var name := ArtifactName(phone);
            |name| >= |SessionPrefix| + |SessionExtension|
            && "+" + name[|SessionPrefix|..|name| - |SessionExtension|] == phone
  {
    var name := ArtifactName(phone);
    assert name[|SessionPrefix|..|name| - |SessionExtension|] == PhoneDigits(phone);
  }

  lemma ArtifactNameInjective(p: string, q: string)
    requires PhoneAccepted(p) && PhoneAccepted(q)
    requires ArtifactName(p) == ArtifactName(q)
    ensures p == q
  {
    ArtifactNameRecoversPhone(p);
    ArtifactNameRecoversPhone(q);
  }

  /** Python's `s.endswith(suffix)`. */
  predicate EndsWith(s: string, suffix: string) {
    |suffix| <= |s| && s[|s| - |suffix|..] == suffix
  }

  /** Decimal text of a natural number, as `str` writes an int. */
  function NatText(n: nat): (r: string)
    ensures |r| > 0
    ensures forall i :: 0 <= i < |r| ==> IsAsciiDigit(r[i])
  {
    var d := ['0', '1', '2', '3', '4', '5', '6', '7', '8', '9'][n % 10];
    if n < 10 then [d] else NatText(n / 10) + [d]
  }

  /** Decimal text of an integer, with a leading '-' when negative. */
  function IntText(n: int): (r: string)
    ensures NoLineBreak(r) && |r| > 0
  {
    if n < 0 then "-" + NatText(-n) else NatText(n)
  }
}
