/**
 * `isValidPhone(phone)`: the anchored pattern
 * `^(?:\(?([0-9]{2})\)?\s?)?(?:9[0-9]{1}|[0-9]{1})[0-9]{3}-?[0-9]{4}$`
 * as a hand-written recognizer, and a grammar of phone shapes that it accepts
 * exactly.
 */
module Phone {
  import opened Wrappers

  predicate IsDigit(c: char)
  {
    '0' <= c <= '9'
  }

  predicate AllDigits(s: string)
  {
    forall i :: 0 <= i < |s| ==> IsDigit(s[i])
  }

  /** The characters JavaScript's `\s` matches. */
  predicate IsSpace(c: char)
  {
    || c == '\t' || c == '\n' || c == '\U{000B}' || c == '\U{000C}' || c == '\r' || c == ' '
    || c == '\U{00A0}' || c == '\U{1680}' || '\U{2000}' <= c <= '\U{200A}'
    || c == '\U{2028}' || c == '\U{2029}' || c == '\U{202F}' || c == '\U{205F}'
    || c == '\U{3000}' || c == '\U{FEFF}'
  }

  /** Whitespace is neither a digit nor one of the punctuation marks the pattern allows. */
  lemma SpaceIsPunctuation(c: char)
    requires IsSpace(c)
    ensures !IsDigit(c) && c !in "()-"
  {
  }

  /** `\(?([0-9]{2})\)?\s?`: the optional area-code part, when present. */
  predicate IsAreaPrefix(p: string)
  {
    var q := if |p| > 0 && p[0] == '(' then p[1..] else p;
    |q| >= 2 && IsDigit(q[0]) && IsDigit(q[1]) &&
    var r := if |q| > 2 && q[2] == ')' then q[3..] else q[2..];
    |r| == 0 || (|r| == 1 && IsSpace(r[0]))
  }

  /** `(?:9[0-9]{1}|[0-9]{1})[0-9]{3}-?[0-9]{4}`: the subscriber number. */
  predicate IsSubscriber(t: string)
  {
    |t| >= 8 && AllDigits(t[|t| - 4..]) &&
    var head := if t[|t| - 5] == '-' then t[..|t| - 5] else t[..|t| - 4];
    AllDigits(head) && (|head| == 4 || (|head| == 5 && head[0] == '9'))
  }

  /** The first `k` characters are an area-code part and the rest a subscriber number. */
  predicate SplitAt(s: string, k: nat)
  {
    k <= |s| && IsAreaPrefix(s[..k]) && IsSubscriber(s[k..])
  }

  /** `isValidPhone(phone)`; an area-code part is two to five characters long. */
  predicate IsValidPhone(s: string)
  {
    IsSubscriber(s) || SplitAt(s, 2) || SplitAt(s, 3) || SplitAt(s, 4) || SplitAt(s, 5)
  }

  // ---------------------------------------------------------------------------
  // The grammar of accepted phones
  // ---------------------------------------------------------------------------

  /** An area code: optional `(`, two digits, optional `)`, optional whitespace character. */
  datatype AreaCode = AreaCode(open: bool, digits: string, close: bool, space: Option<char>)

  /** A phone: optional area code, a 4-digit or 9-led 5-digit head, optional hyphen, a 4-digit tail. */
  datatype PhoneShape = PhoneShape(area: Option<AreaCode>, head: string, hyphen: bool, tail: string)

  predicate AreaOk(a: AreaCode)
  {
    |a.digits| == 2 && AllDigits(a.digits) && (a.space.Some? ==> IsSpace(a.space.value))
  }

  predicate ShapeOk(sh: PhoneShape)
  {
    && (sh.area.Some? ==> AreaOk(sh.area.value))
    && AllDigits(sh.head) && (|sh.head| == 4 || (|sh.head| == 5 && sh.head[0] == '9'))
    && |sh.tail| == 4 && AllDigits(sh.tail)
  }

  /** The character `c` when it is present, nothing otherwise. */
  function Mark(present: bool, c: char): string
  {
    if present then [c] else []
  }

  function SpaceText(space: Option<char>): string
  {
    match space case Some(c) => [c] case None => []
  }

  function AreaText(a: AreaCode): string
  {
    Mark(a.open, '(') + a.digits + Mark(a.close, ')') + SpaceText(a.space)
  }

  function AreaOf(sh: PhoneShape): string
  {
    match sh.area case Some(a) => AreaText(a) case None => ""
  }

  function SubscriberText(sh: PhoneShape): string
  {
    sh.head + Mark(sh.hyphen, '-') + sh.tail
  }

  function Render(sh: PhoneShape): string
  {
    AreaOf(sh) + SubscriberText(sh)
  }

  /** The area-code part of a well-formed shape is recognised, and is two to five characters long. */
  lemma AreaTextAccepted(a: AreaCode)
    requires AreaOk(a)
    ensures IsAreaPrefix(AreaText(a)) && 2 <= |AreaText(a)| <= 5
  {
    var p := AreaText(a);
    var q := a.digits + Mark(a.close, ')') + SpaceText(a.space);
    assert p == Mark(a.open, '(') + q;
    if a.open {
      assert p[1..] == q;
    }
    var r := Mark(a.close, ')') + SpaceText(a.space);
    assert q == a.digits + r;
    assert q[2..] == r;
    if a.close {
      assert q[3..] == r[1..];
    }
  }

  /** The subscriber part of a well-formed shape is recognised. */
  lemma SubscriberAccepted(sh: PhoneShape)
    requires ShapeOk(sh)
    ensures IsSubscriber(SubscriberText(sh))
  {
    var t := SubscriberText(sh);
    var n := |t|;
    assert t[n - 4..] == sh.tail;
    if sh.hyphen {
      assert t[n - 5] == '-';
      assert t[..n - 5] == sh.head;
    } else {
      assert t[n - 5] == sh.head[|sh.head| - 1];
      assert t[..n - 4] == sh.head;
    }
  }

  /** Every phone the grammar produces is accepted. */
  lemma ShapeAccepted(sh: PhoneShape)
    requires ShapeOk(sh)
    ensures IsValidPhone(Render(sh))
  {
    SubscriberAccepted(sh);
    var s := Render(sh);
    if sh.area.Some? {
      var k := |AreaOf(sh)|;
      AreaTextAccepted(sh.area.value);
      assert s[..k] == AreaOf(sh);
      assert s[k..] == SubscriberText(sh);
      assert SplitAt(s, k);
    } else {
      assert s == SubscriberText(sh);
    }
  }

  /** Reads a recognised subscriber number back as a shape without area code. */
  function ParseSubscriber(t: string): (sh: PhoneShape)
    requires IsSubscriber(t)
    ensures ShapeOk(sh) && sh.area.None? && SubscriberText(sh) == t
  {
    var n := |t|;
    var hyphen := t[n - 5] == '-';
    var head := if hyphen then t[..n - 5] else t[..n - 4];
    var sh := PhoneShape(None, head, hyphen, t[n - 4..]);
    assert hyphen ==> t == t[..n - 5] + "-" + t[n - 4..];
    assert !hyphen ==> t == t[..n - 4] + t[n - 4..];
    sh
  }

  /** Reads a recognised area-code part back as an area code. */
  function ParseArea(p: string): (a: AreaCode)
    requires IsAreaPrefix(p)
    ensures AreaOk(a) && AreaText(a) == p
  {
    var open := |p| > 0 && p[0] == '(';
    var q := if open then p[1..] else p;
    var close := |q| > 2 && q[2] == ')';
    var r := if close then q[3..] else q[2..];
    var space := if |r| == 1 then Some(r[0]) else None;
    assert space.Some? ==> IsSpace(space.value);
    assert AllDigits(q[..2]) by {
      assert q[..2] == [q[0], q[1]];
    }
    assert r == SpaceText(space);
    assert q == q[..2] + Mark(close, ')') + r;
    assert p == Mark(open, '(') + q;
    assert p == Mark(open, '(') + q[..2] + Mark(close, ')') + SpaceText(space);
    AreaCode(open, q[..2], close, space)
  }

  /** Reads a phone split after an area-code part of `k` characters back as a shape. */
  function ParseSplit(s: string, k: nat): (sh: PhoneShape)
    requires SplitAt(s, k)
    ensures ShapeOk(sh) && Render(sh) == s
  {
    var area := ParseArea(s[..k]);
    var sub := ParseSubscriber(s[k..]);
    var sh := PhoneShape(Some(area), sub.head, sub.hyphen, sub.tail);
    assert AreaOf(sh) == s[..k];
    assert SubscriberText(sh) == s[k..];
    assert s[..k] + s[k..] == s;
    sh
  }

  /** Reads an accepted phone back as the shape that produces it. */
  function Parse(s: string): (sh: PhoneShape)
    requires IsValidPhone(s)
    ensures ShapeOk(sh) && Render(sh) == s
  {
    if IsSubscriber(s) then
      var sh := ParseSubscriber(s);
      assert AreaOf(sh) == [];
      sh
    else if SplitAt(s, 2) then ParseSplit(s, 2)
    else if SplitAt(s, 3) then ParseSplit(s, 3)
    else if SplitAt(s, 4) then ParseSplit(s, 4)
    else ParseSplit(s, 5)
  }

  /** The recognizer accepts exactly the phones the grammar produces. */
  lemma AcceptedIffShaped(s: string)
    ensures IsValidPhone(s) <==> exists sh :: ShapeOk(sh) && Render(sh) == s
  {
    if IsValidPhone(s) {
      var sh := Parse(s);
      assert ShapeOk(sh) && Render(sh) == s;
    }
    forall sh | ShapeOk(sh) && Render(sh) == s
      ensures IsValidPhone(s)
    {
      ShapeAccepted(sh);
    }
  }

  // ---------------------------------------------------------------------------
  // What an accepted phone looks like
  // ---------------------------------------------------------------------------

  /** The digits of a string, in order. */
  function Digits(s: string): string
  {
    if s == [] then []
    else Digits(s[..|s| - 1]) + (if IsDigit(s[|s| - 1]) then [s[|s| - 1]] else [])
  }

  lemma {:induction false} DigitsAppend(a: string, b: string)
    ensures Digits(a + b) == Digits(a) + Digits(b)
    decreases |b|
  {
    if b == [] {
      assert a + b == a;
    } else {
      var b' := b[..|b| - 1];
      assert (a + b)[..|a + b| - 1] == a + b';
      DigitsAppend(a, b');
    }
  }

  lemma {:induction false} DigitsOfDigits(s: string)
    requires AllDigits(s)
    ensures Digits(s) == s
  {
    if s != [] {
      DigitsOfDigits(s[..|s| - 1]);
    }
  }

  lemma {:induction false} DigitsOfPunctuation(s: string)
    requires forall i :: 0 <= i < |s| ==> !IsDigit(s[i])
    ensures Digits(s) == []
  {
    if s != [] {
      DigitsOfPunctuation(s[..|s| - 1]);
    }
  }

  lemma DigitsOfMark(present: bool, c: char)
    requires !IsDigit(c)
    ensures Digits(Mark(present, c)) == []
  {
    if present {
      assert Mark(present, c)[..0] == [];
    }
  }

  lemma DigitsOfSpaceText(space: Option<char>)
    requires space.Some? ==> !IsDigit(space.value)
    ensures Digits(SpaceText(space)) == []
  {
    if space.Some? {
      assert SpaceText(space)[..0] == [];
    }
  }

  lemma DigitsAppend4(p: string, q: string, r: string, t: string)
    ensures Digits(p + q + r + t) == Digits(p) + Digits(q) + Digits(r) + Digits(t)
  {
    DigitsAppend(p, q);
    DigitsAppend(p + q, r);
    DigitsAppend(p + q + r, t);
  }

  lemma DigitsOfArea(a: AreaCode)
    requires AllDigits(a.digits) && (a.space.Some? ==> !IsDigit(a.space.value))
    ensures Digits(AreaText(a)) == a.digits
  {
    DigitsOfMark(a.open, '(');
    DigitsOfMark(a.close, ')');
    DigitsOfSpaceText(a.space);
    DigitsOfDigits(a.digits);
    var d := a.digits;
    DigitsAppend4(Mark(a.open, '('), d, Mark(a.close, ')'), SpaceText(a.space));
    calc {
      Digits(AreaText(a));
      Digits(Mark(a.open, '(')) + Digits(d) + Digits(Mark(a.close, ')')) + Digits(SpaceText(a.space));
      [] + d + [] + [];
      { assert [] + d + [] + [] == d; }
      d;
    }
  }

  lemma DigitsOfSubscriber(sh: PhoneShape)
    requires AllDigits(sh.head) && AllDigits(sh.tail)
    ensures Digits(SubscriberText(sh)) == sh.head + sh.tail
  {
    var hy := Mark(sh.hyphen, '-');
    DigitsOfMark(sh.hyphen, '-');
    DigitsOfDigits(sh.head);
    DigitsOfDigits(sh.tail);
    DigitsAppend(sh.head, hy);
    DigitsAppend(sh.head + hy, sh.tail);
  }

  lemma DigitsOfShape(sh: PhoneShape)
    requires ShapeOk(sh)
    ensures Digits(Render(sh)) == (match sh.area case Some(a) => a.digits case None => "") + sh.head + sh.tail
  {
    DigitsOfSubscriber(sh);
    DigitsAppend(AreaOf(sh), SubscriberText(sh));
    if sh.area.Some? {
      if sh.area.value.space.Some? {
        SpaceIsPunctuation(sh.area.value.space.value);
      }
      DigitsOfArea(sh.area.value);
    } else {
      DigitsOfPunctuation(AreaOf(sh));
    }
  }

  /**
   * An accepted phone has 8, 9, 10 or 11 digits: an optional two-digit area code,
   * then an 8-digit number or a 9-digit one led by 9. Every other digit count is
   * rejected.
   */
  lemma ValidPhoneDigits(s: string)
    requires IsValidPhone(s)
    ensures 8 <= |Digits(s)| <= 11
    ensures |Digits(s)| == 9 ==> Digits(s)[0] == '9'
    ensures |Digits(s)| == 11 ==> Digits(s)[2] == '9'
  {
    var sh := Parse(s);
    ShapeDigits(sh);
  }

  lemma ShapeDigits(sh: PhoneShape)
    requires ShapeOk(sh)
    ensures var d := Digits(Render(sh));
      && 8 <= |d| <= 11
      && (|d| == 9 ==> d[0] == '9')
      && (|d| == 11 ==> d[2] == '9')
  {
    DigitsOfShape(sh);
    var d := Digits(Render(sh));
    if sh.area.Some? {
      assert |sh.area.value.digits| == 2;
      assert d[2] == sh.head[0];
    } else {
      assert d == sh.head + sh.tail;
    }
  }

  /** The characters of an area-code part are the parentheses, digits and one whitespace, each in its place. */
  lemma AreaTextChars(a: AreaCode, i: int)
    requires AreaOk(a) && 0 <= i < |AreaText(a)|
    ensures AreaText(a)[i] != '-'
    ensures AreaText(a)[i] == '(' ==> i == 0
    ensures IsSpace(AreaText(a)[i]) ==> i == |AreaText(a)| - 1
    ensures IsDigit(AreaText(a)[i]) || AreaText(a)[i] in "()" || IsSpace(AreaText(a)[i])
  {
    var o, c, w := Mark(a.open, '('), Mark(a.close, ')'), SpaceText(a.space);
    var t := AreaText(a);
    if i < |o| + 2 + |c| {
      if i < |o| {
        assert t[i] == '(';
      } else if i < |o| + 2 {
        assert t[i] == a.digits[i - |o|];
      } else {
        assert t[i] == ')';
      }
      if IsSpace(t[i]) {
        SpaceIsPunctuation(t[i]);
      }
    } else {
      assert t[i] == a.space.value;
      SpaceIsPunctuation(t[i]);
    }
  }

  /** The characters of a subscriber part are digits and at most one hyphen, just before the last four digits. */
  lemma SubscriberTextChars(sh: PhoneShape, i: int)
    requires ShapeOk(sh) && 0 <= i < |SubscriberText(sh)|
    ensures IsDigit(SubscriberText(sh)[i]) || (SubscriberText(sh)[i] == '-' && i == |SubscriberText(sh)| - 5)
  {
    var hy := Mark(sh.hyphen, '-');
    var sub := SubscriberText(sh);
    if i < |sh.head| {
      assert sub[i] == sh.head[i];
    } else if i < |sh.head| + |hy| {
      assert sub[i] == '-';
    } else {
      assert sub[i] == sh.tail[i - |sh.head| - |hy|];
    }
  }

  /**
   * An accepted phone is made of digits, parentheses, a hyphen and whitespace
   * only, and is at least eight characters long: the empty string, letters and
   * any other character are rejected. A hyphen can only stand immediately before
   * the final four digits (so there is at most one), an opening parenthesis only
   * at the start, and at most one whitespace character, after the area code.
   */
  lemma ValidPhoneLayout(s: string)
    requires IsValidPhone(s)
    ensures |s| >= 8
    ensures forall i :: 0 <= i < |s| ==> IsDigit(s[i]) || s[i] in "()-" || IsSpace(s[i])
    ensures forall i :: 0 <= i < |s| && s[i] == '-' ==> i == |s| - 5
    ensures forall i :: 0 <= i < |s| && s[i] == '(' ==> i == 0
    ensures forall i, j :: 0 <= i < j < |s| && IsSpace(s[i]) ==> !IsSpace(s[j])
    ensures AllDigits(s[|s| - 4..])
  {
    ShapeLayout(Parse(s), s);
  }

  lemma ShapeLayout(sh: PhoneShape, s: string)
    requires ShapeOk(sh) && Render(sh) == s
    ensures |s| >= 8
    ensures forall i :: 0 <= i < |s| ==> IsDigit(s[i]) || s[i] in "()-" || IsSpace(s[i])
    ensures forall i :: 0 <= i < |s| && s[i] == '-' ==> i == |s| - 5
    ensures forall i :: 0 <= i < |s| && s[i] == '(' ==> i == 0
    ensures forall i, j :: 0 <= i < j < |s| && IsSpace(s[i]) ==> !IsSpace(s[j])
    ensures AllDigits(s[|s| - 4..])
  {
    var area, sub := AreaOf(sh), SubscriberText(sh);
    forall i | 0 <= i < |area|
      ensures s[i] == area[i] && s[i] != '-' && (s[i] == '(' ==> i == 0) && (IsSpace(s[i]) ==> i == |area| - 1)
      ensures IsDigit(s[i]) || s[i] in "()-" || IsSpace(s[i])
    {
      AreaTextChars(sh.area.value, i);
    }
    forall i | |area| <= i < |s|
      ensures IsDigit(s[i]) || (s[i] == '-' && i == |s| - 5)
      ensures !IsSpace(s[i])
    {
      SubscriberTextChars(sh, i - |area|);
      if IsSpace(s[i]) {
        SpaceIsPunctuation(s[i]);
      }
    }
    assert s[|s| - 4..] == sh.tail;
  }

  // ---------------------------------------------------------------------------
  // The documented and the surprising cases
  // ---------------------------------------------------------------------------

  /** The two formats the page documents are accepted. */
  lemma DocumentedFormatWithArea()
    ensures IsValidPhone("(11) 99999-9999")
  {
    var s := "(11) 99999-9999";
    assert s[..5] == "(11) " && s[5..] == "99999-9999";
    assert IsAreaPrefix(s[..5]);
    assert IsSubscriber(s[5..]);
    assert SplitAt(s, 5);
  }

  lemma DocumentedFormatDigitsOnly()
    ensures IsValidPhone("11999999999")
  {
    var s := "11999999999";
    assert s[..2] == "11" && s[2..] == "999999999";
    assert IsAreaPrefix(s[..2]);
    assert IsSubscriber(s[2..]);
    assert SplitAt(s, 2);
  }

  /** The two parentheses are optional independently of each other. */
  lemma OpeningParenthesisAlone()
    ensures IsValidPhone("(11 9999-9999")
  {
    var s := "(11 9999-9999";
    assert s[..4] == "(11 " && s[4..] == "9999-9999";
    assert IsAreaPrefix(s[..4]);
    assert IsSubscriber(s[4..]);
    assert SplitAt(s, 4);
  }

  lemma ClosingParenthesisAlone()
    ensures IsValidPhone("11) 9999-9999")
  {
    var s := "11) 9999-9999";
    assert s[..4] == "11) " && s[4..] == "9999-9999";
    assert IsAreaPrefix(s[..4]);
    assert IsSubscriber(s[4..]);
    assert SplitAt(s, 4);
  }

  /** A nine-digit number not led by 9 is rejected. */
  lemma NineDigitsNeedLeadingNine()
    ensures !IsValidPhone("123456789")
  {
    DigitsOfDigits("123456789");
    if IsValidPhone("123456789") {
      ValidPhoneDigits("123456789");
    }
  }

  /** Two whitespace characters after the area code are rejected. */
  lemma TwoSpacesRejected()
    ensures !IsValidPhone("(11)  9999-9999")
  {
    var s := "(11)  9999-9999";
    assert IsSpace(s[4]) && IsSpace(s[5]);
    if IsValidPhone(s) {
      ValidPhoneLayout(s);
    }
  }
}
