/** Reading an IPv6 address and the rate-limit key it gets (apps/api/src/lib/trusted-proxies.ts). The
    text forms are those of RFC 4291, section 2.2; strings are ASCII. */
module Ipv6 {
  import opened Options

  // ---- the string functions used ----

  /** text.split(sep), of one character. */
  function Split(text: string, sep: char): (tokens: seq<string>)
    ensures |tokens| > 0
  {
    if text == "" then [""]
    else if text[0] == sep then [""] + Split(text[1..], sep)
    else
      var tokens := Split(text[1..], sep);
      [[text[0]] + tokens[0]] + tokens[1..]
  }

  function Join(tokens: seq<string>, sep: char): string {
    if tokens == [] then ""
    else if |tokens| == 1 then tokens[0]
    else tokens[0] + ([sep] + Join(tokens[1..], sep))
  }

  /** text.split("::")[0] */
  function BeforeGap(text: string): string {
    if |text| < 2 then text else if text[0] == ':' && text[1] == ':' then "" else [text[0]] + BeforeGap(text[1..])
  }

  /** What follows the first "::", if there is one. */
  function AfterGap(text: string): Option<string> {
    if |text| < 2 then None else if text[0] == ':' && text[1] == ':' then Some(text[2..]) else AfterGap(text[1..])
  }

  predicate IsDigit(c: char) {
    '0' <= c <= '9'
  }

  predicate IsHex(c: char) {
    IsDigit(c) || 'a' <= c <= 'f' || 'A' <= c <= 'F'
  }

  function DigitValue(c: char): (d: nat)
    requires IsHex(c)
    ensures d < 16
  {
    if IsDigit(c) then c as int - '0' as int
    else if 'a' <= c <= 'f' then c as int - 'a' as int + 10
    else c as int - 'A' as int + 10
  }

  predicate AllHex(text: string) {
    forall i :: 0 <= i < |text| ==> IsHex(text[i])
  }

  function Digit(d: nat): (c: char)
    requires d < 16
    ensures IsHex(c) && DigitValue(c) == d && (d < 10 ==> IsDigit(c))
  {
    if d < 10 then ('0' as int + d) as char else ('a' as int + d - 10) as char
  }

  /** The two ways numbers are written here. */
  datatype Radix = Ten | Sixteen

  function Times(n: nat, radix: Radix): nat {
    if radix.Ten? then n * 10 else n * 16
  }

  function Quotient(n: nat, radix: Radix): nat {
    if radix.Ten? then n / 10 else n / 16
  }

  function Remainder(n: nat, radix: Radix): (d: nat)
    ensures d < 16 && (radix.Ten? ==> d < 10) && Times(Quotient(n, radix), radix) + d == n
  {
    if radix.Ten? then n % 10 else n % 16
  }

  /** Number.parseInt, of digits of the radix. */
  function ParseInt(text: string, radix: Radix): nat
    requires AllHex(text)
  {
    if text == "" then 0 else Times(ParseInt(text[..|text| - 1], radix), radix) + DigitValue(text[|text| - 1])
  }

  /** n.toString(radix) */
  function ToText(n: nat, radix: Radix): (text: string)
    ensures text != "" && AllHex(text) && (radix.Ten? ==> forall i :: 0 <= i < |text| ==> IsDigit(text[i]))
  {
    (if Quotient(n, radix) == 0 then "" else ToText(Quotient(n, radix), radix)) + [Digit(Remainder(n, radix))]
  }

  lemma {:induction false} ParsesBack(n: nat, radix: Radix)
    ensures ParseInt(ToText(n, radix), radix) == n
  {
    hide Times, Digit, DigitValue;
    var text := ToText(n, radix);
    if Quotient(n, radix) == 0 {
      assert text[..|text| - 1] == "";
    } else {
      ParsesBack(Quotient(n, radix), radix);
      assert text[..|text| - 1] == ToText(Quotient(n, radix), radix);
    }
  }

  /** Groups are read as hexadecimal in either case, octets as decimal: a digit more counts the places before
      it sixteen, or ten, times over. */
  lemma PlacesCount(text: string, k: nat)
    requires AllHex(text) && k < 16
    ensures var (low, high) := ("0123456789abcdef"[k], "0123456789ABCDEF"[k]);
      && AllHex(text + [low]) && ParseInt(text + [low], Sixteen) == 16 * ParseInt(text, Sixteen) + k
      && AllHex(text + [high]) && ParseInt(text + [high], Sixteen) == 16 * ParseInt(text, Sixteen) + k
      && (k < 10 ==> ParseInt(text + [low], Ten) == 10 * ParseInt(text, Ten) + k)
    ensures ParseInt("", Ten) == 0 && ParseInt("", Sixteen) == 0
  {
    var (low, high) := ("0123456789abcdef"[k], "0123456789ABCDEF"[k]);
    DigitsCount(k);
    hide DigitValue, IsHex;
    assert (text + [low])[..|text|] == text && (text + [high])[..|text|] == text;
  }

  lemma DigitsCount(k: nat)
    requires k < 16
    ensures var (low, high) := ("0123456789abcdef"[k], "0123456789ABCDEF"[k]);
      IsHex(low) && IsHex(high) && DigitValue(low) == k && DigitValue(high) == k
  {
  }

  predicate Lacks(text: string, c: char) {
    forall i :: 0 <= i < |text| ==> text[i] != c
  }

  lemma {:induction false} SplitsFirst(token: string, sep: char, rest: string)
    requires Lacks(token, sep)
    ensures Split(token, sep) == [token]
    ensures Split(token + ([sep] + rest), sep) == [token] + Split(rest, sep)
  {
    var text := token + ([sep] + rest);
    if token == "" {
      assert text[1..] == rest;
    } else {
      assert text[1..] == token[1..] + ([sep] + rest);
      SplitsFirst(token[1..], sep, rest);
      assert [token[0]] + token[1..] == token;
    }
  }

  ghost predicate AllLack(tokens: seq<string>, sep: char) {
    forall i :: 0 <= i < |tokens| ==> Lacks(tokens[i], sep)
  }

  lemma {:induction false} SplitsBack(tokens: seq<string>, sep: char)
    requires tokens != [] && AllLack(tokens, sep)
    ensures Split(Join(tokens, sep), sep) == tokens
  {
    SplitsFirst(tokens[0], sep, Join(tokens[1..], sep));
    if |tokens| > 1 {
      SplitsBack(tokens[1..], sep);
      assert tokens == [tokens[0]] + tokens[1..];
    }
  }

  // ---- reading an address ----

  /** What the regular expression matches: four runs of one to three digits, to the end. */
  predicate IsQuad(text: string) {
    var parts := Split(text, '.');
    |parts| == 4 && forall i :: 0 <= i < 4 ==> 1 <= |parts[i]| <= 3 && forall k :: 0 <= k < |parts[i]| ==> IsDigit(parts[i][k])
  }

  /** Where its leftmost match starts. */
  function QuadAt(text: string, from: nat): Option<nat>
    decreases |text| - from
  {
    if from >= |text| then None else if IsQuad(text[from..]) then Some(from) else QuadAt(text, from + 1)
  }

  function Octet(part: string): nat
    requires forall k :: 0 <= k < |part| ==> IsDigit(part[k])
  {
    ParseInt(part, Ten)
  }

  /** `(a << 8) | b`, of two octets. */
  function Pair(a: nat, b: nat): nat {
    a * 256 + b
  }

  /** The dotted quad at the end, if any, as two hextets. */
  function FoldQuad(text: string): string {
    var at := QuadAt(text, 0);
    if at.None? then text else
    QuadIsWhereFound(text, 0);
    var parts := Split(text[at.value..], '.');
    text[..at.value] + (ToText(Pair(Octet(parts[0]), Octet(parts[1])), Sixteen)
      + (":" + ToText(Pair(Octet(parts[2]), Octet(parts[3])), Sixteen)))
  }

  lemma QuadIsWhereFound(text: string, from: nat)
    ensures var at := QuadAt(text, from); at.Some? ==> from <= at.value < |text| && IsQuad(text[at.value..])
    decreases |text| - from
  {
    if from < |text| && !IsQuad(text[from..]) {
      QuadIsWhereFound(text, from + 1);
    }
  }

  function Groups(text: string): seq<string> {
    if text == "" then [] else Split(text, ':')
  }

  function Zeros(n: int): seq<string> {
    if n <= 0 then [] else ["0"] + Zeros(n - 1)
  }

  /** The groups of the text, the gap filled with zeros. */
  function GroupsOf(text: string): seq<string> {
    var left := Groups(BeforeGap(text));
    var after := AfterGap(text);
    if after.None? then left else
    var right := Groups(BeforeGap(after.value));
    left + (Zeros(8 - |left| - |right|) + right)
  }

  /** ipv6Hextets; none stands for a group that is no number. */
  function Hextets(address: string): seq<Option<nat>> {
    Numbers(GroupsOf(FoldQuad(Split(address, '%')[0])))
  }

  function Number(group: string): Option<nat> {
    if AllHex(group) then Some(ParseInt(group, Sixteen)) else None
  }

  function Numbers(groups: seq<string>): (numbers: seq<Option<nat>>)
    ensures |numbers| == |groups| && forall i :: 0 <= i < |groups| ==> numbers[i] == Number(groups[i])
  {
    if groups == [] then [] else [Number(groups[0])] + Numbers(groups[1..])
  }

  // ---- the text forms ----

  datatype Quad = Quad(a: nat, b: nat, c: nat, d: nat)

  /** An address as written: groups left of a gap (all of them without one), groups right of it, a
      dotted-quad tail, a zone. */
  datatype Written = Written(left: seq<string>, gap: bool, right: seq<string>, tail: Option<Quad>, zone: Option<string>)

  predicate IsGroup(group: string) {
    1 <= |group| <= 4 && AllHex(group)
  }

  predicate IsOctets(q: Quad) {
    q.a < 256 && q.b < 256 && q.c < 256 && q.d < 256
  }

  predicate Valid(w: Written) {
    && (forall i :: 0 <= i < |w.left| ==> IsGroup(w.left[i]))
    && (forall i :: 0 <= i < |w.right| ==> IsGroup(w.right[i]))
    && (w.tail.Some? ==> IsOctets(w.tail.value))
    && var count := |w.left| + |w.right| + (if w.tail.Some? then 2 else 0);
      if w.gap then count <= 7 else count == 8 && w.right == []
  }

  function QuadText(q: Quad): string {
    Join([ToText(q.a, Ten), ToText(q.b, Ten), ToText(q.c, Ten), ToText(q.d, Ten)], '.')
  }

  /** The tail as written, and as two groups. */
  function TailText(w: Written): seq<string> {
    if w.tail.None? then [] else [QuadText(w.tail.value)]
  }

  function TailGroups(w: Written): seq<string> {
    if w.tail.None? then [] else
    [ToText(Pair(w.tail.value.a, w.tail.value.b), Sixteen), ToText(Pair(w.tail.value.c, w.tail.value.d), Sixteen)]
  }

  function TextWith(w: Written, tail: seq<string>): string {
    if w.gap then Join(w.left, ':') + ("::" + Join(w.right + tail, ':')) else Join(w.left + tail, ':')
  }

  function TextOf(w: Written): string {
    TextWith(w, TailText(w)) + (if w.zone.None? then "" else "%" + w.zone.value)
  }

  function Values(groups: seq<string>): (values: seq<nat>)
    requires forall i :: 0 <= i < |groups| ==> AllHex(groups[i])
    ensures |values| == |groups| && forall i :: 0 <= i < |groups| ==> values[i] == ParseInt(groups[i], Sixteen)
  {
    if groups == [] then [] else [ParseInt(groups[0], Sixteen)] + Values(groups[1..])
  }

  /** The eight hextets a text form stands for. */
  function Meaning(w: Written): (hextets: seq<nat>)
    requires Valid(w)
    ensures |hextets| == 8
  {
    var tail := if w.tail.None? then [] else [Pair(w.tail.value.a, w.tail.value.b), Pair(w.tail.value.c, w.tail.value.d)];
    var gap := 8 - |w.left| - |w.right| - |tail|;
    Values(w.left) + seq(gap, _ => 0) + Values(w.right) + tail
  }

  // ---- the gap is found ----

  /** Every colon is followed by something else. */
  ghost predicate Clean(text: string) {
    forall i :: 0 <= i < |text| && text[i] == ':' ==> i + 1 < |text| && text[i + 1] != ':'
  }

  lemma {:induction false} GapFound(head: string, rest: string)
    requires Clean(head)
    ensures BeforeGap(head + ("::" + rest)) == head && AfterGap(head + ("::" + rest)) == Some(rest)
  {
    var text := head + ("::" + rest);
    if head == "" {
      assert text[2..] == rest;
    } else {
      assert text[1..] == head[1..] + ("::" + rest);
      assert forall i :: 0 <= i < |head| - 1 ==> head[1..][i] == head[i + 1];
      GapFound(head[1..], rest);
    }
  }

  lemma {:induction false} NoGap(text: string)
    requires Clean(text)
    ensures BeforeGap(text) == text && AfterGap(text) == None
  {
    if |text| >= 2 {
      assert forall i :: 0 <= i < |text| - 1 ==> text[1..][i] == text[i + 1];
      NoGap(text[1..]);
    }
  }

  ghost predicate AreTokens(tokens: seq<string>) {
    AllLack(tokens, ':') && forall i :: 0 <= i < |tokens| ==> tokens[i] != ""
  }

  lemma {:induction false} JoinIsClean(tokens: seq<string>)
    requires AreTokens(tokens)
    ensures Clean(Join(tokens, ':')) && (tokens != [] ==> Join(tokens, ':') != "" && Join(tokens, ':')[0] == tokens[0][0])
  {
    if |tokens| > 1 {
      JoinIsClean(tokens[1..]);
      var first, rest := tokens[0], Join(tokens[1..], ':');
      var text := first + ([':'] + rest);
      forall i | 0 <= i < |text| && text[i] == ':' ensures i + 1 < |text| && text[i + 1] != ':' {
        if i > |first| {
          assert text[i] == rest[i - |first| - 1];
        } else {
          assert text[|first| + 1] == rest[0];
        }
      }
    }
  }

  lemma GroupsBack(tokens: seq<string>)
    requires AreTokens(tokens)
    ensures Groups(Join(tokens, ':')) == tokens
  {
    JoinIsClean(tokens);
    if tokens != [] {
      SplitsBack(tokens, ':');
    }
  }

  lemma GroupsOfText(w: Written, tail: seq<string>)
    requires AreTokens(w.left) && AreTokens(w.right) && AreTokens(tail)
    ensures GroupsOf(TextWith(w, tail)) ==
      if w.gap then w.left + (Zeros(8 - |w.left| - |w.right + tail|) + (w.right + tail)) else w.left + tail
  {
    if w.gap {
      JoinIsClean(w.left);
      GapFound(Join(w.left, ':'), Join(w.right + tail, ':'));
      JoinIsClean(w.right + tail);
      NoGap(Join(w.right + tail, ':'));
      GroupsBack(w.left);
      GroupsBack(w.right + tail);
    } else {
      JoinIsClean(w.left + tail);
      NoGap(Join(w.left + tail, ':'));
      GroupsBack(w.left + tail);
    }
  }

  // ---- the dotted quad is found ----

  lemma {:induction false} CharsOfTokens(text: string, sep: char, k: nat)
    requires k < |text|
    ensures text[k] == sep || exists i, j :: 0 <= i < |Split(text, sep)| && 0 <= j < |Split(text, sep)[i]| && Split(text, sep)[i][j] == text[k]
  {
    if text[0] == sep {
      if k > 0 {
        CharsOfTokens(text[1..], sep, k - 1);
        if text[k] != sep {
          var tokens := Split(text[1..], sep);
          var i, j :| 0 <= i < |tokens| && 0 <= j < |tokens[i]| && tokens[i][j] == text[k];
          assert Split(text, sep)[i + 1] == tokens[i];
        }
      }
    } else {
      var tokens := Split(text[1..], sep);
      if k == 0 {
        assert Split(text, sep)[0][0] == text[0];
      } else {
        CharsOfTokens(text[1..], sep, k - 1);
        if text[k] != sep {
          var i, j :| 0 <= i < |tokens| && 0 <= j < |tokens[i]| && tokens[i][j] == text[k];
          if i == 0 {
            assert Split(text, sep)[0][j + 1] == tokens[0][j];
          } else {
            assert Split(text, sep)[i] == tokens[i];
          }
        }
      }
    }
  }

  lemma QuadHasNoColon(text: string, k: nat)
    requires IsQuad(text) && k < |text|
    ensures text[k] != ':'
  {
    CharsOfTokens(text, '.', k);
  }

  /** Each token followed by a colon. */
  function Lead(tokens: seq<string>): string {
    if tokens == [] then "" else tokens[0] + ([':'] + Lead(tokens[1..]))
  }

  lemma {:induction false} LeadEnds(tokens: seq<string>)
    ensures Lead(tokens) == "" || Lead(tokens)[|Lead(tokens)| - 1] == ':'
  {
    if tokens != [] {
      LeadEnds(tokens[1..]);
    }
  }

  lemma Reassociate(a: string, b: string, c: string, d: string)
    ensures a + (b + (c + d)) == (a + (b + c)) + d
  {}

  lemma {:induction false} JoinAfterLead(tokens: seq<string>, last: seq<string>)
    requires last != []
    ensures Join(tokens + last, ':') == Lead(tokens) + Join(last, ':')
  {
    if tokens == [] {
      assert tokens + last == last;
    } else {
      JoinAfterLead(tokens[1..], last);
      assert (tokens + last)[1..] == tokens[1..] + last;
      Reassociate(tokens[0], [':'], Lead(tokens[1..]), Join(last, ':'));
    }
  }

  /** What a text form holds before its tail. */
  function BeforeTail(w: Written): string {
    if w.gap then Join(w.left, ':') + ("::" + Lead(w.right)) else Lead(w.left)
  }

  lemma Regroup(head: string, middle: string, end: string)
    ensures head + ("::" + (middle + end)) == (head + ("::" + middle)) + end
    ensures middle == "" || middle[|middle| - 1] == ':' ==>
      var all := head + ("::" + middle); all[|all| - 1] == ':'
  {}

  lemma TextBeforeTail(w: Written, tail: seq<string>)
    requires tail != []
    ensures TextWith(w, tail) == BeforeTail(w) + Join(tail, ':')
    ensures BeforeTail(w) == "" || BeforeTail(w)[|BeforeTail(w)| - 1] == ':'
  {
    hide Join, Lead;
    JoinAfterLead(if w.gap then w.right else w.left, tail);
    LeadEnds(if w.gap then w.right else w.left);
    if w.gap {
      Regroup(Join(w.left, ':'), Lead(w.right), Join(tail, ':'));
    }
  }

  lemma {:induction false} QuadFoundAt(before: string, quad: string, from: nat)
    requires before == "" || before[|before| - 1] == ':'
    requires from <= |before| && quad != "" && IsQuad(quad)
    ensures QuadAt(before + quad, from) == Some(|before|)
    decreases |before| - from
  {
    var text := before + quad;
    if from == |before| {
      assert text[from..] == quad;
    } else {
      assert text[from..][|before| - 1 - from] == ':';
      if IsQuad(text[from..]) {
        QuadHasNoColon(text[from..], |before| - 1 - from);
      }
      QuadFoundAt(before, quad, from + 1);
    }
  }

  lemma {:induction false} NoQuadFound(text: string, from: nat)
    requires Lacks(text, '.')
    ensures QuadAt(text, from) == None
    decreases |text| - from
  {
    if from < |text| {
      assert forall i :: 0 <= i < |text| - from ==> text[from..][i] == text[from + i];
      SplitsFirst(text[from..], '.', "");
      NoQuadFound(text, from + 1);
    }
  }

  lemma {:induction false} JoinLacks(tokens: seq<string>, sep: char, c: char)
    requires AllLack(tokens, c) && sep != c
    ensures Lacks(Join(tokens, sep), c)
  {
    if |tokens| > 1 {
      JoinLacks(tokens[1..], sep, c);
    }
  }

  lemma OctetIsShort(n: nat)
    requires n < 256
    ensures 1 <= |ToText(n, Ten)| <= 3
  {
    hide Digit;
    assert Quotient(Quotient(Quotient(n, Ten), Ten), Ten) == 0;
    assert |ToText(Quotient(Quotient(n, Ten), Ten), Ten)| == 1;
    assert |ToText(Quotient(n, Ten), Ten)| <= 2;
  }

  function QuadParts(q: Quad): seq<string> {
    [ToText(q.a, Ten), ToText(q.b, Ten), ToText(q.c, Ten), ToText(q.d, Ten)]
  }

  lemma QuadReadsBack(q: Quad)
    ensures Split(QuadText(q), '.') == QuadParts(q) && QuadText(q) != ""
    ensures IsOctets(q) ==> IsQuad(QuadText(q))
  {
    hide ToText;
    SplitsBack(QuadParts(q), '.');
    if IsOctets(q) {
      OctetIsShort(q.a);
      OctetIsShort(q.b);
      OctetIsShort(q.c);
      OctetIsShort(q.d);
    }
  }

  // ---- reading back every text form ----

  lemma Tokens(w: Written)
    requires Valid(w)
    ensures AreTokens(w.left) && AreTokens(w.right) && AreTokens(TailGroups(w))
    ensures forall c: char :: c in "%." ==> AllLack(w.left, c) && AllLack(w.right, c) && AllLack(TailGroups(w), c)
  {
    hide ToText;
  }

  lemma TextLacks(w: Written, tail: seq<string>, c: char)
    requires AllLack(w.left, c) && AllLack(w.right, c) && AllLack(tail, c) && c != ':'
    ensures Lacks(TextWith(w, tail), c)
  {
    JoinLacks(w.left, ':', c);
    JoinLacks(w.right + tail, ':', c);
    JoinLacks(w.left + tail, ':', c);
    hide Join;
  }

  /** The dotted tail becomes two groups. */
  lemma TailFolds(w: Written)
    requires Valid(w)
    ensures FoldQuad(TextWith(w, TailText(w))) == TextWith(w, TailGroups(w))
  {
    Tokens(w);
    if w.tail.None? {
      TextLacks(w, [], '.');
      NoQuadFound(TextWith(w, []), 0);
    } else {
      var q, before := w.tail.value, BeforeTail(w);
      QuadReadsBack(q);
      TextBeforeTail(w, TailText(w));
      TextBeforeTail(w, TailGroups(w));
      FoldsAt(before, q);
    }
  }

  lemma FoldsAt(before: string, q: Quad)
    requires IsOctets(q) && (before == "" || before[|before| - 1] == ':')
    ensures FoldQuad(before + QuadText(q))
         == before + Join([ToText(Pair(q.a, q.b), Sixteen), ToText(Pair(q.c, q.d), Sixteen)], ':')
  {
    hide ToText, IsQuad, QuadText;
    QuadReadsBack(q);
    QuadFoundAt(before, QuadText(q), 0);
    assert (before + QuadText(q))[|before|..] == QuadText(q) && (before + QuadText(q))[..|before|] == before;
    ParsesBack(q.a, Ten);
    ParsesBack(q.b, Ten);
    ParsesBack(q.c, Ten);
    ParsesBack(q.d, Ten);
  }

  lemma ZoneDrops(w: Written)
    requires Valid(w)
    ensures Split(TextOf(w), '%')[0] == TextWith(w, TailText(w))
  {
    Tokens(w);
    if w.tail.Some? {
      hide ToText;
      JoinLacks(QuadParts(w.tail.value), '.', '%');
    }
    hide Join;
    assert AllLack(TailText(w), '%');
    TextLacks(w, TailText(w), '%');
    var text := TextWith(w, TailText(w));
    SplitsFirst(text, '%', if w.zone.None? then "" else w.zone.value);
    assert text + "" == text;
  }

  function Somes(values: seq<nat>): seq<Option<nat>> {
    seq(|values|, i requires 0 <= i < |values| => Some(values[i]))
  }

  lemma {:induction false} ZerosAreZeros(n: int)
    ensures |Zeros(n)| == (if n <= 0 then 0 else n) && forall i :: 0 <= i < |Zeros(n)| ==> Zeros(n)[i] == "0"
  {
    if n > 0 {
      ZerosAreZeros(n - 1);
    }
  }

  lemma ZeroIsZero()
    ensures AllHex("0") && ParseInt("0", Sixteen) == 0
  {
    assert "0"[..0] == "";
  }

  lemma TailValues(w: Written)
    requires Valid(w)
    ensures AllHexTokens(TailGroups(w)) && |TailGroups(w)| == (if w.tail.Some? then 2 else 0)
    ensures w.tail.Some? ==> Values(TailGroups(w)) == [Pair(w.tail.value.a, w.tail.value.b), Pair(w.tail.value.c, w.tail.value.d)]
  {
    if w.tail.Some? {
      ParsesBack(Pair(w.tail.value.a, w.tail.value.b), Sixteen);
      ParsesBack(Pair(w.tail.value.c, w.tail.value.d), Sixteen);
    }
  }

  ghost predicate AllHexTokens(tokens: seq<string>) {
    forall i :: 0 <= i < |tokens| ==> AllHex(tokens[i])
  }

  /** ipv6Hextets gives every text form of an address the same eight hextets: full, compressed, with a
      dotted-quad tail, with a zone. */
  lemma ReadsEveryForm(w: Written)
    requires Valid(w)
    ensures Hextets(TextOf(w)) == Somes(Meaning(w))
  {
    Tokens(w);
    ZoneDrops(w);
    TailFolds(w);
    GroupsOfText(w, TailGroups(w));
    TailValues(w);
    ZeroIsZero();
    var groups := GroupsOf(TextWith(w, TailGroups(w)));
    ZerosAreZeros(8 - |w.left| - |w.right + TailGroups(w)|);
    GroupsMean(w, groups);
  }

  lemma NumbersAppend(a: seq<string>, b: seq<string>)
    ensures Numbers(a + b) == Numbers(a) + Numbers(b)
  {
    hide Number, Numbers;
  }

  lemma SomesAppend(x: seq<nat>, y: seq<nat>)
    ensures Somes(x + y) == Somes(x) + Somes(y)
  {}

  lemma Pieces(a: seq<string>, b: seq<string>, x: seq<nat>, y: seq<nat>)
    requires Numbers(a) == Somes(x) && Numbers(b) == Somes(y)
    ensures Numbers(a + b) == Somes(x + y)
  {
    hide Numbers, Somes;
    NumbersAppend(a, b);
    SomesAppend(x, y);
  }

  lemma TokensMean(tokens: seq<string>)
    requires AllHexTokens(tokens)
    ensures Numbers(tokens) == Somes(Values(tokens))
  {
    hide ParseInt, AllHex;
  }

  lemma ZerosMean(n: nat)
    ensures Numbers(Zeros(n)) == Somes(seq(n, _ => 0))
  {
    hide ParseInt, AllHex;
    ZerosAreZeros(n);
    ZeroIsZero();
  }

  lemma GroupsMean(w: Written, groups: seq<string>)
    requires Valid(w) && AllHexTokens(TailGroups(w)) && |TailGroups(w)| == (if w.tail.Some? then 2 else 0)
    requires w.tail.Some? ==> Values(TailGroups(w)) == [Pair(w.tail.value.a, w.tail.value.b), Pair(w.tail.value.c, w.tail.value.d)]
    requires groups ==
      if w.gap then w.left + (Zeros(8 - |w.left| - |w.right + TailGroups(w)|) + (w.right + TailGroups(w))) else w.left + TailGroups(w)
    ensures Numbers(groups) == Somes(Meaning(w))
  {
    hide ParseInt, TailGroups, AllHex, Pair, Zeros, Numbers, Values, Somes;
    var tail := TailGroups(w);
    var gap := 8 - |w.left| - |w.right| - |tail|;
    TokensMean(w.left);
    TokensMean(w.right);
    TokensMean(tail);
    ZerosMean(gap);
    Pieces(w.left, Zeros(gap), Values(w.left), seq(gap, _ => 0));
    Pieces(w.left + Zeros(gap), w.right, Values(w.left) + seq(gap, _ => 0), Values(w.right));
    Pieces(w.left + Zeros(gap) + w.right, tail, Values(w.left) + seq(gap, _ => 0) + Values(w.right), Values(tail));
    OneAfterAnother(w, groups, gap);
    assert w.tail.None? ==> Values(tail) == [];
  }

  lemma OneAfterAnother(w: Written, groups: seq<string>, gap: nat)
    requires Valid(w) && gap == 8 - |w.left| - |w.right| - |TailGroups(w)|
    requires groups ==
      if w.gap then w.left + (Zeros(8 - |w.left| - |w.right + TailGroups(w)|) + (w.right + TailGroups(w))) else w.left + TailGroups(w)
    ensures groups == w.left + Zeros(gap) + w.right + TailGroups(w)
  {
    NoZeros(w, gap);
    hide Zeros, TailGroups;
  }

  lemma NoZeros(w: Written, gap: nat)
    requires Valid(w) && gap == 8 - |w.left| - |w.right| - |TailGroups(w)|
    ensures !w.gap ==> Zeros(gap) == [] && w.right == []
  {}

  // ---- the rate-limit key ----

  /** isIP gives 6: some text form, zone aside. */
  ghost predicate IsIpv6(text: string) {
    exists w: Written :: Valid(w) && w.zone.None? && TextOf(w) == text
  }

  function Lower(text: string): string {
    seq(|text|, i requires 0 <= i < |text| =>
      if 'A' <= text[i] <= 'Z' then (text[i] as int - 'A' as int + 'a' as int) as char else text[i])
  }

  /** ::ffff:0:0/96, section 2.5.5.2 of RFC 4291. */
  predicate IsMapped4(hextets: seq<nat>)
    requires |hextets| == 8
  {
    hextets[..5] == [0, 0, 0, 0, 0] && hextets[5] == 0xffff
  }

  function MappedQuad(hextets: seq<nat>): Quad
    requires |hextets| == 8
  {
    Quad(hextets[6] / 256, hextets[6] % 256, hextets[7] / 256, hextets[7] % 256)
  }

  function NetworkTokens(hextets: seq<nat>): seq<string>
    requires |hextets| == 8
  {
    [ToText(hextets[0], Sixteen), ToText(hextets[1], Sixteen), ToText(hextets[2], Sixteen), ToText(hextets[3], Sixteen)]
  }

  function KeyOf(hextets: seq<nat>): string
    requires |hextets| == 8
  {
    if IsMapped4(hextets) then QuadText(MappedQuad(hextets)) else Join(NetworkTokens(hextets), ':') + "::/64"
  }

  function Known(number: Option<nat>): nat {
    if number.Some? then number.value else 0
  }

  /** ipRateLimitKey */
  ghost function IpRateLimitKey(address: string): string {
    if !IsIpv6(Split(address, '%')[0]) then Lower(address) else
    var hextets := Hextets(address);
    if |hextets| != 8 then "" else KeyOf(seq(8, i requires 0 <= i < 8 => Known(hextets[i])))
  }

  lemma KeyOfText(w: Written)
    requires Valid(w)
    ensures IpRateLimitKey(TextOf(w)) == KeyOf(Meaning(w))
  {
    hide Hextets, Meaning, KeyOf, TextWith;
    ReadsEveryForm(w);
    ZoneDrops(w);
    var plain := w.(zone := None);
    assert Valid(plain) && TextOf(plain) == TextWith(w, TailText(w)) by {
      SameTextWith(w, plain);
    }
    var hextets := Somes(Meaning(w));
    assert seq(8, i requires 0 <= i < 8 => Known(hextets[i])) == Meaning(w);
  }

  lemma SameTextWith(w: Written, plain: Written)
    requires plain == w.(zone := None)
    ensures TextWith(plain, TailText(plain)) == TextWith(w, TailText(w))
  {}

  lemma QuadTextTells(p: Quad, q: Quad)
    requires QuadText(p) == QuadText(q)
    ensures p == q
  {
    hide ToText, QuadText;
    QuadReadsBack(p);
    QuadReadsBack(q);
    assert QuadParts(p)[0] == QuadParts(q)[0] && QuadParts(p)[1] == QuadParts(q)[1];
    assert QuadParts(p)[2] == QuadParts(q)[2] && QuadParts(p)[3] == QuadParts(q)[3];
    ParsesBack(p.a, Ten);
    ParsesBack(p.b, Ten);
    ParsesBack(p.c, Ten);
    ParsesBack(p.d, Ten);
    ParsesBack(q.a, Ten);
    ParsesBack(q.b, Ten);
    ParsesBack(q.c, Ten);
    ParsesBack(q.d, Ten);
  }

  lemma NetworkTells(m: seq<nat>, n: seq<nat>)
    requires |m| == |n| == 8 && Join(NetworkTokens(m), ':') == Join(NetworkTokens(n), ':')
    ensures m[..4] == n[..4]
  {
    assert AllLack(NetworkTokens(m), ':') && AllLack(NetworkTokens(n), ':');
    hide ToText, Join;
    SplitsBack(NetworkTokens(m), ':');
    SplitsBack(NetworkTokens(n), ':');
    forall i | 0 <= i < 4 ensures m[i] == n[i] {
      assert NetworkTokens(m)[i] == NetworkTokens(n)[i];
      ParsesBack(m[i], Sixteen);
      ParsesBack(n[i], Sixteen);
    }
  }

  /** One client, as far as the limit goes: one IPv4 address behind both, or one /64 that isn't the
      mapped addresses'. */
  ghost predicate SameClient(m: seq<nat>, n: seq<nat>)
    requires |m| == |n| == 8
  {
    if IsMapped4(m) || IsMapped4(n) then IsMapped4(m) && IsMapped4(n) && m[6..] == n[6..] else m[..4] == n[..4]
  }

  lemma KeyTells(m: seq<nat>, n: seq<nat>)
    requires |m| == |n| == 8
    ensures KeyOf(m) == KeyOf(n) <==> SameClient(m, n)
  {
    hide ToText, Join, QuadText;
    if IsMapped4(m) && IsMapped4(n) {
      if KeyOf(m) == KeyOf(n) {
        QuadTextTells(MappedQuad(m), MappedQuad(n));
        assert m[6] == n[6] && m[7] == n[7];
      }
      assert m[6..] == [m[6], m[7]] && n[6..] == [n[6], n[7]];
    } else if IsMapped4(m) || IsMapped4(n) {
      var (mapped, other) := if IsMapped4(m) then (m, n) else (n, m);
      QuadTextLacksColon(MappedQuad(mapped));
      var network := Join(NetworkTokens(other), ':');
      assert (network + "::/64")[|network|] == ':';
    } else {
      var one, other := Join(NetworkTokens(m), ':'), Join(NetworkTokens(n), ':');
      if KeyOf(m) == KeyOf(n) {
        assert one == (one + "::/64")[..|one|] && other == (other + "::/64")[..|other|];
        NetworkTells(m, n);
      }
    }
  }

  lemma QuadTextLacksColon(q: Quad)
    ensures Lacks(QuadText(q), ':')
  {
    assert AllLack(QuadParts(q), ':');
    JoinLacks(QuadParts(q), '.', ':');
  }

  /** Two IPv6 texts share a key exactly when they are one IPv4-mapped address, or neither is mapped and
      they share a /64. */
  lemma KeysAgreeExactly(v: Written, w: Written)
    requires Valid(v) && Valid(w)
    ensures IpRateLimitKey(TextOf(v)) == IpRateLimitKey(TextOf(w)) <==> SameClient(Meaning(v), Meaning(w))
  {
    KeyOfText(v);
    KeyOfText(w);
    KeyTells(Meaning(v), Meaning(w));
  }

  lemma {:induction false} JoinedGroupsHaveColon(tokens: seq<string>)
    requires |tokens| > 1
    ensures !Lacks(Join(tokens, ':'), ':')
  {
    assert Join(tokens, ':')[|tokens[0]|] == ':';
  }

  lemma Ipv6HasColon(w: Written)
    requires Valid(w)
    ensures !Lacks(TextOf(w), ':')
  {
    var text := TextWith(w, TailText(w));
    if w.gap {
      assert text[|Join(w.left, ':')|] == ':';
    } else {
      JoinedGroupsHaveColon(w.left + TailText(w));
    }
    assert forall i :: 0 <= i < |text| ==> TextOf(w)[i] == text[i];
  }

  /** An IPv4 address is its own key, and its IPv4-mapped forms have the same. */
  lemma MappedGetsTheIpv4Key(w: Written)
    requires Valid(w) && IsMapped4(Meaning(w))
    ensures IpRateLimitKey(TextOf(w)) == QuadText(MappedQuad(Meaning(w))) == IpRateLimitKey(QuadText(MappedQuad(Meaning(w))))
  {
    KeyOfText(w);
    Ipv4IsItsOwnKey(MappedQuad(Meaning(w)));
  }

  lemma Ipv4IsItsOwnKey(q: Quad)
    ensures IpRateLimitKey(QuadText(q)) == QuadText(q)
  {
    var text := QuadText(q);
    QuadTextLacksColon(q);
    assert AllLack(QuadParts(q), '%');
    JoinLacks(QuadParts(q), '.', '%');
    SplitsFirst(text, '%', "");
    forall w: Written | Valid(w) ensures TextOf(w) != text {
      Ipv6HasColon(w);
    }
    NoUpper(q);
  }

  lemma NoUpper(q: Quad)
    ensures Lower(QuadText(q)) == QuadText(q)
  {
    var text := QuadText(q);
    forall i | 0 <= i < |text| ensures !('A' <= text[i] <= 'Z') {
      QuadReadsBack(q);
      CharsOfTokens(text, '.', i);
    }
  }

  /** Sharing a /64 is not enough: `::1` and `::ffff:1.2.3.4` share one, and keep apart keys. */
  lemma SharingA64IsNotEnough()
    ensures exists v: Written, w: Written ::
      && Valid(v) && Valid(w) && Meaning(v)[..4] == Meaning(w)[..4]
      && IpRateLimitKey(TextOf(v)) != IpRateLimitKey(TextOf(w))
  {
    hide IpRateLimitKey, TextOf;
    var v, w := Loopback(), MappedSample();
    LoopbackMeans();
    MappedSampleMeans();
    KeysAgreeExactly(v, w);
  }

  function Loopback(): Written {
    Written([], true, ["1"], None, None)
  }

  function MappedSample(): Written {
    Written([], true, ["ffff"], Some(Quad(1, 2, 3, 4)), None)
  }

  lemma LoopbackMeans()
    ensures Valid(Loopback()) && Meaning(Loopback()) == [0, 0, 0, 0, 0, 0, 0, 1]
  {
    assert "1"[..0] == "";
    assert ParseInt("1", Sixteen) == 1;
    assert Values(["1"]) == [1];
  }

  lemma FfffIs()
    ensures AllHex("ffff") && ParseInt("ffff", Sixteen) == 0xffff
  {
    assert "ffff"[..3] == "fff" && "fff"[..2] == "ff" && "ff"[..1] == "f" && "f"[..0] == "";
    assert ParseInt("f", Sixteen) == 15;
    assert ParseInt("ff", Sixteen) == 255;
    assert ParseInt("fff", Sixteen) == 4095;
  }

  lemma MappedSampleMeans()
    ensures Valid(MappedSample()) && Meaning(MappedSample()) == [0, 0, 0, 0, 0, 0xffff, 0x102, 0x304]
  {
    hide ParseInt, AllHex;
    FfffIs();
    assert Values(["ffff"]) == [0xffff];
  }
}
