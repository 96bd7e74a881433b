/** The card payment page: the Luhn check (Annex B of ISO/IEC 7812-1), the
    grouping and masking of the card number, brand detection from the number's
    prefix, the expiry and whole-form validators, and the sanitisers the input
    fields run on every keystroke. */
module Card {
  import opened Common

  // ---------------------------------------------------------------------------
  // Character filters

  predicate NotSpace(c: char) { !IsJsSpace(c) }

  /** `replace(/\s/g, '')`: the text without its white space. */
  function StripSpaces(s: string): (r: string)
    ensures forall i :: 0 <= i < |r| ==> !IsJsSpace(r[i])
  {
    var r := Filter(s, NotSpace);
    assert forall i :: 0 <= i < |r| ==> r[i] in r;
    r
  }

  /** `replace(/[^0-9]/g, '')`: the ASCII digits of the text, in order. */
  function DigitsOf(s: string): (r: string)
    ensures AllDigits(r) && |r| <= |s|
  {
    var r := Filter(s, IsDigit);
    assert forall i :: 0 <= i < |r| ==> r[i] in r;
    r
  }

  /** A string of digits is its own digits. */
  lemma DigitsOfDigits(s: string)
    requires AllDigits(s)
    ensures DigitsOf(s) == s
  {
    FilterKeepsAll(s, IsDigit);
  }

  /** Digits are never white space, so removing white space first changes no digit. */
  lemma {:induction false} DigitsIgnoreSpaces(s: string)
    ensures DigitsOf(StripSpaces(s)) == DigitsOf(s)
  {
    if s != [] {
      var init := s[..|s| - 1];
      var c := s[|s| - 1];
      DigitsIgnoreSpaces(init);
      if NotSpace(c) {
        FilterConcat(Filter(init, NotSpace), [c], IsDigit);
      }
    }
  }

  // ---------------------------------------------------------------------------
  // Groups of four

  /** `s.match(/.{1,4}/g) || []`: consecutive groups of four characters, the
      last one shorter when the length is not a multiple of four. */
  function Groups(s: string): (g: seq<string>)
    ensures |g| == (|s| + 3) / 4
    ensures forall i :: 0 <= i < |g| ==> 1 <= |g[i]| <= 4
    ensures Concat(g) == s
    decreases |s|
  {
    if s == [] then []
    else if |s| <= 4 then
      assert Concat([s]) == s + Concat([]);
      [s]
    else
      var g := [s[..4]] + Groups(s[4..]);
      assert g[1..] == Groups(s[4..]);
      assert s[..4] + s[4..] == s;
      g
  }

  /** Group i holds characters 4i to 4i+3 of the text (fewer for the last). */
  lemma {:induction false} GroupsAt(s: string, i: nat)
    requires i < |Groups(s)|
    ensures |Groups(s)[i]| == Min(4, |s| - 4 * i)
    ensures forall j :: 0 <= j < |Groups(s)[i]| ==> Groups(s)[i][j] == s[4 * i + j]
    decreases |s|
  {
    if |s| > 4 && i > 0 {
      var t := s[4..];
      GroupsAt(t, i - 1);
      assert Groups(s)[i] == Groups(t)[i - 1];
    }
  }

  /** The groups laid end to end. */
  function Concat(gs: seq<string>): string
  {
    if gs == [] then [] else gs[0] + Concat(gs[1..])
  }

  /** `groups.join(' ')`. */
  function Join(gs: seq<string>): string
  {
    if gs == [] then [] else if |gs| == 1 then gs[0] else gs[0] + " " + Join(gs[1..])
  }

  /** Joining with single spaces adds one character per gap. */
  lemma {:induction false} JoinLength(gs: seq<string>)
    requires gs != []
    ensures |Join(gs)| == |Concat(gs)| + |gs| - 1
    decreases |gs|
  {
    if |gs| > 1 {
      JoinLength(gs[1..]);
    }
  }

  /** A filter that drops the separator and keeps every character of the
      groups sees through the join. */
  lemma {:induction false} FilterJoin(gs: seq<string>, p: char -> bool)
    requires !p(' ')
    requires forall i, j :: 0 <= i < |gs| && 0 <= j < |gs[i]| ==> p(gs[i][j])
    ensures Filter(Join(gs), p) == Concat(gs)
    decreases |gs|
  {
    if gs != [] {
      FilterKeepsAll(gs[0], p);
      if |gs| == 1 {
        assert Concat(gs) == gs[0] + Concat([]);
      } else {
        FilterJoin(gs[1..], p);
        FilterConcat(gs[0] + " ", Join(gs[1..]), p);
        FilterConcat(gs[0], " ", p);
        assert Filter(" ", p) == [];
      }
    }
  }

  // ---------------------------------------------------------------------------
  // Card number field

  /** `formatCardNumber`: the digits of the input in groups of four separated
      by single spaces. */
  function FormatCardNumber(value: string): string
  {
    var cleaned := DigitsOf(StripSpaces(value));
    if cleaned == [] then cleaned else Join(Groups(cleaned))
  }

  /** The formatted number is the typed digits in groups: every group but the
      last has four digits, and the spaces add one character per gap. */
  lemma FormatCardNumberShape(value: string)
    ensures var d := DigitsOf(value);
            FormatCardNumber(value) == Join(Groups(d)) &&
            |FormatCardNumber(value)| == if d == [] then 0 else |d| + (|d| + 3) / 4 - 1
  {
    DigitsIgnoreSpaces(value);
    var d := DigitsOf(value);
    if d != [] {
      JoinLength(Groups(d));
    }
  }

  /** Removing the spaces from the formatted number, or keeping only its
      digits, gives back exactly the digits that were typed. */
  lemma FormatCardNumberRoundTrip(value: string)
    ensures StripSpaces(FormatCardNumber(value)) == DigitsOf(value)
    ensures DigitsOf(FormatCardNumber(value)) == DigitsOf(value)
  {
    DigitsIgnoreSpaces(value);
    var d := DigitsOf(value);
    var gs := Groups(d);
    forall i, j | 0 <= i < |gs| && 0 <= j < |gs[i]|
      ensures IsDigit(gs[i][j]) && NotSpace(gs[i][j])
    {
      GroupsAt(d, i);
      assert gs[i][j] == d[4 * i + j];
    }
    FilterJoin(gs, NotSpace);
    FilterJoin(gs, IsDigit);
  }

  /** Formatting an already formatted number leaves it as it is, so the field
      can be reformatted on every keystroke. */
  lemma FormatCardNumberIdempotent(value: string)
    ensures FormatCardNumber(FormatCardNumber(value)) == FormatCardNumber(value)
  {
    FormatCardNumberRoundTrip(value);
    FormatCardNumberShape(value);
    FormatCardNumberShape(FormatCardNumber(value));
  }

  // ---------------------------------------------------------------------------
  // Luhn check (ISO/IEC 7812-1, Annex B)

  /** What one digit adds to the sum: every second digit from the right is
      doubled, and a doubled digit above 9 has 9 taken off. */
  function LuhnContribution(d: nat, doubled: bool): (r: nat)
    requires d < 10
    ensures r < 10
  {
    if !doubled then d else if 2 * d > 9 then 2 * d - 9 else 2 * d
  }

  /** The Luhn sum of a digit string; the digit at distance k from the right
      end is doubled exactly when k is odd. */
  function LuhnSum(s: string): nat
    requires AllDigits(s)
  {
    if s == [] then 0
    else LuhnContribution(DigitValue(s[0]), (|s| - 1) % 2 == 1) + LuhnSum(s[1..])
  }

  /** A card number passes when every character is a digit and the Luhn sum
      is a multiple of ten.  A non-digit makes `parseInt` yield NaN, which
      poisons the sum, so such a number never passes; the empty number does. */
  predicate LuhnValid(s: string)
  {
    AllDigits(s) && LuhnSum(s) % 10 == 0
  }

  /** `luhnCheck`: walks the number from its last character to its first,
      doubling every second digit. */
  method LuhnCheck(cardNumber: string) returns (valid: bool)
    ensures valid == LuhnValid(cardNumber)
  {
    var sum := 0;
    var isEven := false;
    var isNaN := false;
    var i := |cardNumber| - 1;
    while i >= 0
      invariant -1 <= i < |cardNumber|
      invariant isEven == ((|cardNumber| - 1 - i) % 2 == 1)
      invariant isNaN == !AllDigits(cardNumber[i + 1..])
      invariant !isNaN ==> sum == LuhnSum(cardNumber[i + 1..])
      decreases i
    {
      var c := cardNumber[i];
      assert cardNumber[i..][1..] == cardNumber[i + 1..];
      if !IsDigit(c) {
        isNaN := true;
      } else if !isNaN {
        var digit := DigitValue(c);
        if isEven {
          digit := digit * 2;
          if digit > 9 {
            digit := digit - 9;
          }
        }
        sum := sum + digit;
      }
      isEven := !isEven;
      i := i - 1;
    }
    assert cardNumber[0..] == cardNumber;
    valid := !isNaN && sum % 10 == 0;
  }

  /** Appending a digit adds its value undoubled to the sum of the number with
      a zero appended: the last digit is never doubled. */
  lemma {:induction false} LuhnSumAppend(p: string, c: char)
    requires AllDigits(p) && IsDigit(c)
    ensures AllDigits(p + [c]) && AllDigits(p + ['0'])
    ensures LuhnSum(p + [c]) == LuhnSum(p + ['0']) + DigitValue(c)
    decreases |p|
  {
    if p != [] {
      assert (p + [c])[1..] == p[1..] + [c];
      assert (p + ['0'])[1..] == p[1..] + ['0'];
      LuhnSumAppend(p[1..], c);
    }
  }

  /** The check digit a card issuer appends to the account digits. */
  function CheckDigit(p: string): (d: nat)
    requires AllDigits(p)
    ensures d < 10
  {
    assert AllDigits(p + ['0']);
    (10 - LuhnSum(p + ['0']) % 10) % 10
  }

  /** Appending the check digit makes any digit string pass, and it is the
      only digit that does. */
  lemma CheckDigitCompletes(p: string, c: char)
    requires AllDigits(p) && IsDigit(c)
    ensures LuhnValid(p + [DigitChar(CheckDigit(p))])
    ensures LuhnValid(p + [c]) ==> c == DigitChar(CheckDigit(p))
  {
    var d := CheckDigit(p);
    LuhnSumAppend(p, DigitChar(d));
    LuhnSumAppend(p, c);
    CompletesDecade(LuhnSum(p + ['0']), d);
    CompletesDecade(LuhnSum(p + ['0']), DigitValue(c));
  }

  /** Exactly one digit brings a sum up to a multiple of ten. */
  lemma CompletesDecade(x: nat, v: nat)
    requires v < 10
    ensures (x + v) % 10 == 0 <==> v == (10 - x % 10) % 10
  {
    var q := x / 10;
    assert x == 10 * q + x % 10;
    if x % 10 == 0 {
      assert (x + v) % 10 == v % 10;
    } else {
      assert x + (10 - x % 10) == 10 * (q + 1);
    }
  }

  /** Changing the digit at position k changes the sum by the difference of
      the two contributions at that position. */
  lemma {:induction false} LuhnSumUpdate(s: string, k: nat, c: char)
    requires AllDigits(s) && k < |s| && IsDigit(c)
    ensures AllDigits(s[k := c])
    ensures var doubled := (|s| - 1 - k) % 2 == 1;
            LuhnSum(s[k := c]) + LuhnContribution(DigitValue(s[k]), doubled)
            == LuhnSum(s) + LuhnContribution(DigitValue(c), doubled)
    decreases |s|
  {
    if k > 0 {
      assert s[k := c][1..] == s[1..][k - 1 := c];
      LuhnSumUpdate(s[1..], k - 1, c);
    }
  }

  /** Doubling (with nine taken off) sends different digits to different values. */
  lemma ContributionInjective(a: nat, b: nat, doubled: bool)
    requires a < 10 && b < 10 && a != b
    ensures LuhnContribution(a, doubled) != LuhnContribution(b, doubled)
  {
  }

  /** The Luhn check catches every single mistyped digit: two digit strings
      of the same length that differ in exactly one place never both pass. */
  lemma LuhnDetectsSingleDigitErrors(s: string, k: nat, c: char)
    requires AllDigits(s) && k < |s| && IsDigit(c) && c != s[k]
    ensures !(LuhnValid(s) && LuhnValid(s[k := c]))
  {
    var doubled := (|s| - 1 - k) % 2 == 1;
    LuhnSumUpdate(s, k, c);
    ContributionInjective(DigitValue(s[k]), DigitValue(c), doubled);
    if LuhnValid(s) && LuhnValid(s[k := c]) {
      SameDecade(LuhnSum(s), LuhnSum(s[k := c]),
        LuhnContribution(DigitValue(s[k]), doubled), LuhnContribution(DigitValue(c), doubled));
    }
  }

  /** Two multiples of ten that differ by the difference of two digits differ
      by nothing. */
  lemma SameDecade(x: int, y: int, a: int, b: int)
    requires x % 10 == 0 && y % 10 == 0 && y + a == x + b
    requires 0 <= a < 10 && 0 <= b < 10
    ensures a == b
  {
    var q := y / 10 - x / 10;
    assert 10 * q == b - a;
  }

  // ---------------------------------------------------------------------------
  // Masked display of the card number

  const Bullet: char := '\U{2022}'
  const HiddenGroup: string := [Bullet, Bullet, Bullet, Bullet]

  /** What the card shows before any digit is typed. */
  const EmptyMask: string := "\U{2022}\U{2022}\U{2022}\U{2022} \U{2022}\U{2022}\U{2022}\U{2022} \U{2022}\U{2022}\U{2022}\U{2022} \U{2022}\U{2022}\U{2022}\U{2022}"

  /** `padEnd(n, c)`. */
  function PadEnd(s: string, n: nat, c: char): string
  {
    if |s| >= n then s else s + Repeat(c, n - |s|)
  }

  /** Group i as the card shows it: the groups strictly between the first and
      the last are hidden, the first and the last are padded with bullets. */
  function MaskedGroup(groups: seq<string>, i: nat): string
    requires i < |groups|
  {
    if 0 < i < |groups| - 1 then HiddenGroup else PadEnd(groups[i], 4, Bullet)
  }

  /** The groups shown on the card for the cleaned number, with hidden groups
      added until there are four. */
  function MaskedGroups(cleaned: string): seq<string>
  {
    var g := Groups(cleaned);
    seq(|g|, i requires 0 <= i < |g| => MaskedGroup(g, i)) + seq(Max0(4 - |g|), _ => HiddenGroup)
  }

  /** `maskCardNumber`: builds the shown groups, then pads the list to four. */
  method MaskCardNumber(value: string) returns (r: string)
    ensures r == Join(MaskedGroups(StripSpaces(value)))
  {
    var cleaned := StripSpaces(value);
    if |cleaned| == 0 {
      MaskOfNothing();
      return EmptyMask;
    }
    var groups := Groups(cleaned);
    var shown := seq(|groups|, i requires 0 <= i < |groups| => MaskedGroup(groups, i));
    var displayGroups := shown;
    while |displayGroups| < 4
      invariant |groups| <= |displayGroups| <= Max0(4 - |groups|) + |groups|
      invariant displayGroups == shown + seq(|displayGroups| - |groups|, _ => HiddenGroup)
      decreases 4 - |displayGroups|
    {
      displayGroups := displayGroups + [HiddenGroup];
    }
    assert |displayGroups| == Max0(4 - |groups|) + |groups|;
    r := Join(displayGroups);
  }

  /** The literal shown for an empty number is four hidden groups. */
  lemma MaskOfNothing()
    ensures Join(MaskedGroups([])) == EmptyMask
  {
    var m := MaskedGroups([]);
    assert m == [HiddenGroup, HiddenGroup, HiddenGroup, HiddenGroup];
    assert m[1..][1..][1..] == [HiddenGroup];
  }

  /** Every shown group is four characters wide, and there are at least four. */
  lemma MaskedGroupsShape(cleaned: string)
    ensures var m := MaskedGroups(cleaned);
            |m| == if |cleaned| <= 16 then 4 else (|cleaned| + 3) / 4
    ensures forall i :: 0 <= i < |MaskedGroups(cleaned)| ==> |MaskedGroups(cleaned)[i]| == 4
  {
  }

  /** Only the first and the last group of the number are shown; every other
      group is hidden. */
  lemma MaskHidesMiddle(cleaned: string, i: nat)
    requires 0 < i < |MaskedGroups(cleaned)| && i != |Groups(cleaned)| - 1
    ensures MaskedGroups(cleaned)[i] == HiddenGroup
  {
  }

  /** The first group is the first four characters (or all of a shorter
      text). */
  lemma GroupsFirst(s: string)
    requires s != []
    ensures Groups(s)[0] == s[..Min(4, |s|)]
  {
    var g := Groups(s);
    GroupsAt(s, 0);
    var first := s[..Min(4, |s|)];
    assert |g[0]| == |first| && forall j :: 0 <= j < |first| ==> g[0][j] == first[j];
  }

  /** The last group is what follows the other, full, groups. */
  lemma {:induction false} GroupsLast(s: string)
    requires s != []
    ensures Groups(s)[|Groups(s)| - 1] == s[4 * (|Groups(s)| - 1)..]
    decreases |s|
  {
    if |s| > 4 {
      var t := s[4..];
      GroupsLast(t);
      var n := |Groups(t)|;
      assert Groups(s)[n] == Groups(t)[n - 1];
      assert t[4 * (n - 1)..] == s[4 * n..];
    }
  }

  /** The first group shows the first four characters and the last group the
      trailing ones, padded with bullets. */
  lemma MaskShowsEnds(cleaned: string)
    requires cleaned != []
    ensures MaskedGroups(cleaned)[0] == PadEnd(cleaned[..Min(4, |cleaned|)], 4, Bullet)
    ensures var n := |Groups(cleaned)|;
            n > 1 ==> MaskedGroups(cleaned)[n - 1] == PadEnd(cleaned[4 * (n - 1)..], 4, Bullet)
  {
    var g := Groups(cleaned);
    GroupsFirst(cleaned);
    GroupsLast(cleaned);
    assert MaskedGroups(cleaned)[0] == MaskedGroup(g, 0);
    if |g| > 1 {
      assert MaskedGroups(cleaned)[|g| - 1] == MaskedGroup(g, |g| - 1);
    }
  }

  /** Four groups joined. */
  lemma JoinFour(a: string, b: string, c: string, e: string)
    ensures Join([a, b, c, e]) == a + " " + b + " " + c + " " + e
  {
    var m := [a, b, c, e];
    assert m[1..] == [b, c, e] && m[1..][1..] == [c, e] && m[1..][1..][1..] == [e];
    assert Join([c, e]) == c + " " + e;
    assert Join([b, c, e]) == b + " " + (c + " " + e);
    assert Join(m) == a + " " + (b + " " + (c + " " + e));
  }

  /** A sixteen-digit number shows its first and its last four digits. */
  lemma MaskSixteenDigits(d: string)
    requires |d| == 16
    ensures Join(MaskedGroups(d)) == d[..4] + " " + HiddenGroup + " " + HiddenGroup + " " + d[12..]
  {
    MaskShowsEnds(d);
    var m := MaskedGroups(d);
    assert |Groups(d)| == 4 && |m| == 4;
    assert m[1] == HiddenGroup && m[2] == HiddenGroup;
    assert m == [d[..4], HiddenGroup, HiddenGroup, d[12..]];
    JoinFour(d[..4], HiddenGroup, HiddenGroup, d[12..]);
  }

  // ---------------------------------------------------------------------------
  // Card brand

  /** The logos the page knows; `DefaultBrand` is the generic card. */
  datatype CardBrand = Visa | Mastercard | Amex | Discover | Diners | Jcb | DefaultBrand

  /** The prefix each brand's pattern accepts. */
  predicate Matches(b: CardBrand, s: string)
  {
    match b
    case Visa => |s| >= 1 && s[0] == '4'
    case Mastercard => |s| >= 2 && s[0] == '5' && '1' <= s[1] <= '5'
    case Amex => |s| >= 2 && s[0] == '3' && (s[1] == '4' || s[1] == '7')
    case Discover =>
      (|s| >= 4 && s[..4] == "6011") || (|s| >= 2 && s[..2] == "65") ||
      (|s| >= 3 && s[..2] == "64" && '4' <= s[2] <= '9')
    case Diners =>
      |s| >= 2 && s[0] == '3' && ((|s| >= 3 && s[1] == '0' && '0' <= s[2] <= '5') || s[1] == '6' || s[1] == '8')
    case Jcb => |s| >= 2 && s[0] == '3' && s[1] == '5'
    case DefaultBrand => false
  }

  /** `detectCardType`: the first brand, in the page's order, whose pattern
      accepts the number. */
  function DetectCardType(s: string): (r: CardBrand)
    ensures r != DefaultBrand ==> Matches(r, s)
    ensures r == DefaultBrand <==> forall b :: !Matches(b, s)
  {
    if Matches(Visa, s) then Visa
    else if Matches(Mastercard, s) then Mastercard
    else if Matches(Amex, s) then Amex
    else if Matches(Discover, s) then Discover
    else if Matches(Diners, s) then Diners
    else if Matches(Jcb, s) then Jcb
    else DefaultBrand
  }

  /** No number matches two brands, so the order of the patterns does not
      matter: the detected brand is the one whose pattern matches. */
  lemma DetectCardTypeExact(s: string, b: CardBrand)
    requires b != DefaultBrand
    ensures DetectCardType(s) == b <==> Matches(b, s)
  {
    if Matches(b, s) && Matches(Discover, s) && |s| >= 4 && s[..4] == "6011" {
      assert s[0] == '6' && s[1] == '0';
    }
  }

  // ---------------------------------------------------------------------------
  // Card number field handler

  /** The card number input handler: the field is reformatted, the card shows
      the masked number and the brand detected from the digits. */
  method OnCardNumberInput(value: string) returns (field: string, display: string, brand: CardBrand)
    ensures field == FormatCardNumber(value)
    ensures display == Join(MaskedGroups(DigitsOf(value)))
    ensures brand == DetectCardType(DigitsOf(value))
  {
    field := FormatCardNumber(value);
    display := MaskCardNumber(field);
    FormatCardNumberRoundTrip(value);
    brand := DetectCardType(StripSpaces(field));
  }

  // ---------------------------------------------------------------------------
  // Expiry date

  datatype ExpiryCheck = ExpiryAccepted | ExpiryRejected(message: string)

  /** The clock reading the check compares against. */
  datatype Today = Today(fullYear: nat, month: nat)

  /** `^\d{2}\/\d{2}$`. */
  predicate ExpiryShape(e: string)
  {
    |e| == 5 && IsDigit(e[0]) && IsDigit(e[1]) && e[2] == '/' && IsDigit(e[3]) && IsDigit(e[4])
  }

  function ExpiryMonth(e: string): nat
    requires ExpiryShape(e)
  {
    10 * DigitValue(e[0]) + DigitValue(e[1])
  }

  function ExpiryYear(e: string): nat
    requires ExpiryShape(e)
  {
    10 * DigitValue(e[3]) + DigitValue(e[4])
  }

  /** Months counted from the start of the two-digit century. */
  function MonthIndex(year: int, month: int): int
  {
    12 * year + month
  }

  const FormatMessage := "Invalid expiry date format (MM/YY)"
  const MonthMessage := "Invalid month"
  const ExpiredMessage := "Card has expired"

  /** `validateExpiryDate`: a well-formed MM/YY with a real month, no earlier
      than the current month of the current two-digit year. */
  function ValidateExpiryDate(expiry: string, today: Today): ExpiryCheck
  {
    if !ExpiryShape(expiry) then ExpiryRejected(FormatMessage)
    else
      var month := ExpiryMonth(expiry);
      var year := ExpiryYear(expiry);
      if month < 1 || month > 12 then ExpiryRejected(MonthMessage)
      else
        var currentYear := today.fullYear % 100;
        var currentMonth := today.month;
        if year < currentYear || (year == currentYear && month < currentMonth) then ExpiryRejected(ExpiredMessage)
        else ExpiryAccepted
  }

  /** On a real calendar month, a card is accepted exactly when the field is a
      well-formed MM/YY with a month from 1 to 12 that is not before the
      current month; a malformed field and a bad month each have their own
      message. */
  lemma ExpiryVerdict(expiry: string, today: Today)
    ensures var r := ValidateExpiryDate(expiry, today);
            1 <= today.month <= 12 ==>
              (r == ExpiryAccepted <==>
                 ExpiryShape(expiry) && 1 <= ExpiryMonth(expiry) <= 12 &&
                 MonthIndex(ExpiryYear(expiry), ExpiryMonth(expiry)) >= MonthIndex(today.fullYear % 100, today.month))
    ensures var r := ValidateExpiryDate(expiry, today);
            (r == ExpiryRejected(FormatMessage) <==> !ExpiryShape(expiry)) &&
            (r == ExpiryRejected(MonthMessage) <==> ExpiryShape(expiry) && !(1 <= ExpiryMonth(expiry) <= 12))
  {
  }

  /** A card accepted on some day is accepted on every earlier day of the same
      century. */
  lemma ExpiryAcceptedEarlier(expiry: string, earlier: Today, later: Today)
    requires 1 <= earlier.month <= 12 && 1 <= later.month <= 12
    requires earlier.fullYear / 100 == later.fullYear / 100
    requires MonthIndex(earlier.fullYear, earlier.month) <= MonthIndex(later.fullYear, later.month)
    requires ValidateExpiryDate(expiry, later) == ExpiryAccepted
    ensures ValidateExpiryDate(expiry, earlier) == ExpiryAccepted
  {
    ExpiryVerdict(expiry, earlier);
    ExpiryVerdict(expiry, later);
    var c := later.fullYear / 100;
    assert earlier.fullYear == 100 * c + earlier.fullYear % 100;
    assert later.fullYear == 100 * c + later.fullYear % 100;
  }

  /** The expiry input handler: the digits typed, with a slash after the
      second one and at most four digits kept. */
  function FormatExpiry(value: string): string
  {
    var d := DigitsOf(value);
    if |d| >= 2 then d[..2] + "/" + d[2..Min(4, |d|)] else d
  }

  /** The handler keeps the first four digits typed, in order. */
  lemma FormatExpiryDigits(value: string)
    ensures var d := DigitsOf(value);
            DigitsOf(FormatExpiry(value)) == d[..Min(4, |d|)]
  {
    var d := DigitsOf(value);
    if |d| >= 2 {
      var a, b := d[..2], d[2..Min(4, |d|)];
      FilterConcat(a + "/", b, IsDigit);
      FilterConcat(a, "/", IsDigit);
      assert AllDigits(a) && AllDigits(b);
      DigitsOfDigits(a);
      DigitsOfDigits(b);
      assert Filter("/", IsDigit) == [];
      assert a + b == d[..Min(4, |d|)];
    } else {
      DigitsOfDigits(d);
    }
  }

  /** The field is in MM/YY form exactly when at least four digits were typed. */
  lemma FormatExpiryShape(value: string)
    ensures ExpiryShape(FormatExpiry(value)) <==> |DigitsOf(value)| >= 4
  {
    var d := DigitsOf(value);
    var e := FormatExpiry(value);
    if |d| >= 4 {
      assert e == d[..2] + "/" + d[2..4];
      assert e[0] == d[0] && e[1] == d[1] && e[3] == d[2] && e[4] == d[3];
    } else if |d| >= 2 {
      assert |e| == |d| + 1;
    }
  }

  /** Running the handler on its own output changes nothing. */
  lemma FormatExpiryIdempotent(value: string)
    ensures FormatExpiry(FormatExpiry(value)) == FormatExpiry(value)
  {
    FormatExpiryDigits(value);
    var d := DigitsOf(value);
    var d' := DigitsOf(FormatExpiry(value));
    if |d| >= 2 {
      assert d'[..2] == d[..2];
      assert d'[2..Min(4, |d'|)] == d[2..Min(4, |d|)];
    } else {
      assert d' == d;
    }
  }

  /** What the card shows for the expiry field. */
  function ExpiryDisplay(field: string): string
  {
    if field == [] then [Bullet, Bullet, '/', Bullet, Bullet] else field
  }

  // ---------------------------------------------------------------------------
  // Cardholder name and CVV

  const MaxCardholderNameLength := 26

  /** `[a-zA-Z\s\-']`. */
  predicate NameChar(c: char)
  {
    'a' <= c <= 'z' || 'A' <= c <= 'Z' || IsJsSpace(c) || c == '-' || c == '\''
  }

  /** The name input handler: cut to 26 characters, then every character
      other than a letter, white space, hyphen or apostrophe dropped. */
  function SanitizeName(value: string): (r: string)
    ensures |r| <= MaxCardholderNameLength
    ensures forall i :: 0 <= i < |r| ==> NameChar(r[i])
  {
    var cut := if |value| > MaxCardholderNameLength then value[..MaxCardholderNameLength] else value;
    var r := Filter(cut, NameChar);
    assert forall i :: 0 <= i < |r| ==> r[i] in r;
    r
  }

  /** A sanitised name passes through the handler unchanged. */
  lemma SanitizeNameIdempotent(value: string)
    ensures SanitizeName(SanitizeName(value)) == SanitizeName(value)
  {
    FilterKeepsAll(SanitizeName(value), NameChar);
  }

  function UpperChar(c: char): char
  {
    if 'a' <= c <= 'z' then (c as int - 32) as char else c
  }

  /** `toUpperCase` on ASCII letters; the name field holds no other letters. */
  function ToUpper(s: string): (r: string)
    ensures |r| == |s| && forall i :: 0 <= i < |s| ==> r[i] == UpperChar(s[i])
  {
    if s == [] then [] else ToUpper(s[..|s| - 1]) + [UpperChar(s[|s| - 1])]
  }

  /** What the card shows for the name field. */
  function NameDisplay(field: string): string
  {
    if field == [] then "YOUR NAME" else ToUpper(field)
  }

  /** The card shows a sanitised name in capitals, character for character,
      with no lower-case letter left. */
  lemma NameDisplayCapitals(value: string)
    ensures var f := SanitizeName(value);
            var d := NameDisplay(f);
            (f != [] ==> |d| == |f|) &&
            forall i :: 0 <= i < |d| ==> !('a' <= d[i] <= 'z') && (NameChar(d[i]) || d[i] == ' ')
  {
  }

  /** The CVV input handler keeps the digits. */
  function SanitizeCvv(value: string): (r: string)
    ensures AllDigits(r)
  {
    DigitsOf(value)
  }

  /** What the back of the card shows for the CVV: one bullet per digit,
      three when the field is empty; never a digit. */
  function CvvDisplay(field: string): (r: string)
    ensures |r| == if field == [] then 3 else |field|
    ensures forall i :: 0 <= i < |r| ==> r[i] == Bullet
  {
    if field == [] then [Bullet, Bullet, Bullet] else Repeat(Bullet, |field|)
  }

  // ---------------------------------------------------------------------------
  // Card background

  const TotalCardBackgrounds := 25
  const FallbackGradients := 8

  /** `(imageNumber - 1) % FALLBACK_GRADIENTS.length` with JavaScript's
      remainder, which takes the sign of the dividend. */
  function GradientIndex(imageNumber: int): (r: int)
    ensures 1 <= imageNumber ==> 0 <= r < FallbackGradients && (imageNumber - 1 - r) % FallbackGradients == 0
    ensures imageNumber < 1 ==> -FallbackGradients < r <= 0
  {
    var a := imageNumber - 1;
    if a >= 0 then a % FallbackGradients else -((-a) % FallbackGradients)
  }

  /** `Math.floor(Math.random() * 25) + 1`, given the random draw scaled to
      an index below 25. */
  function BackgroundNumber(draw: nat): (n: nat)
    requires draw < TotalCardBackgrounds
    ensures 1 <= n <= TotalCardBackgrounds
  {
    draw + 1
  }

  /** Every background the page can pick has a fallback gradient. */
  lemma GradientForEveryBackground(draw: nat)
    requires draw < TotalCardBackgrounds
    ensures 0 <= GradientIndex(BackgroundNumber(draw)) < FallbackGradients
    ensures GradientIndex(BackgroundNumber(draw)) == draw % FallbackGradients
  {
  }

  // ---------------------------------------------------------------------------
  // Form validation

  /** The raw values of the payment form's fields. */
  datatype CardForm = CardForm(number: string, name: string, expiry: string, cvv: string,
                               address: string, city: string, zip: string)

  /** The form's checks, in the order the form runs them. */
  datatype Check = NumberLength | NumberLuhn | NameLength | ExpiryValid | CvvLength
                 | AddressPresent | CityPresent | ZipPresent

  function Rank(c: Check): nat
  {
    match c
    case NumberLength => 0
    case NumberLuhn => 1
    case NameLength => 2
    case ExpiryValid => 3
    case CvvLength => 4
    case AddressPresent => 5
    case CityPresent => 6
    case ZipPresent => 7
  }

  /** The outcome of every check on a form (the expiry check with its message). */
  datatype Results = Results(numberLength: bool, numberLuhn: bool, nameLength: bool, expiry: ExpiryCheck,
                             cvvLength: bool, address: bool, city: bool, zip: bool)

  /** Each check of the form, on its own. */
  function Evaluate(f: CardForm, today: Today): Results
  {
    var number := StripSpaces(f.number);
    Results(13 <= |number| <= 19, LuhnValid(number), |JsTrim(f.name)| >= 2,
            ValidateExpiryDate(f.expiry, today), 3 <= |f.cvv| <= 4,
            JsTrim(f.address) != [], JsTrim(f.city) != [], JsTrim(f.zip) != [])
  }

  /** Whether one check passed. */
  predicate Passes(c: Check, res: Results)
  {
    match c
    case NumberLength => res.numberLength
    case NumberLuhn => res.numberLuhn
    case NameLength => res.nameLength
    case ExpiryValid => res.expiry == ExpiryAccepted
    case CvvLength => res.cvvLength
    case AddressPresent => res.address
    case CityPresent => res.city
    case ZipPresent => res.zip
  }

  /** The fixed alert of every check but the expiry one, which shows the
      expiry validator's own message. */
  function Alert(c: Check): string
    requires c != ExpiryValid
  {
    match c
    case NumberLength => "Please enter a valid card number (13-19 digits)"
    case NumberLuhn => "Invalid card number. Please check and try again."
    case NameLength => "Please enter the cardholder name (minimum 2 characters)"
    case CvvLength => "Please enter a valid CVV (3-4 digits)"
    case AddressPresent => "Please enter your billing address"
    case CityPresent => "Please enter your city"
    case ZipPresent => "Please enter your ZIP code"
  }

  /** The alert shown when a check fails. */
  function Message(c: Check, res: Results): string
  {
    if c != ExpiryValid then Alert(c)
    else if res.expiry.ExpiryRejected? then res.expiry.message
    else ""
  }

  /** The first check, in order, that failed; none when all passed. */
  function FirstFailure(res: Results): Option<Check>
  {
    if !res.numberLength then Some(NumberLength)
    else if !res.numberLuhn then Some(NumberLuhn)
    else if !res.nameLength then Some(NameLength)
    else if res.expiry != ExpiryAccepted then Some(ExpiryValid)
    else if !res.cvvLength then Some(CvvLength)
    else if !res.address then Some(AddressPresent)
    else if !res.city then Some(CityPresent)
    else if !res.zip then Some(ZipPresent)
    else None
  }

  /** What the form decides from the check results. */
  function Decision(res: Results): Outcome<Check>
  {
    match FirstFailure(res)
    case None => Pass
    case Some(c) => Fail(c)
  }

  /** `validateForm`: the checks in order; the first that fails refuses the
      payment (its alert is `Message` of that check), and the payment goes
      ahead only when all pass. */
  method ValidateForm(f: CardForm, today: Today) returns (r: Outcome<Check>)
    ensures r == Decision(Evaluate(f, today))
  {
    ghost var res := Evaluate(f, today);
    var cardNumber := StripSpaces(f.number);
    if |cardNumber| < 13 || |cardNumber| > 19 {
      assert !res.numberLength;
      return Fail(NumberLength);
    }
    assert res.numberLength;
    var luhn := LuhnCheck(cardNumber);
    if !luhn {
      assert !res.numberLuhn;
      return Fail(NumberLuhn);
    }
    assert res.numberLuhn;
    if |JsTrim(f.name)| < 2 {
      assert !res.nameLength;
      return Fail(NameLength);
    }
    assert res.nameLength;
    var expiry := ValidateExpiryDate(f.expiry, today);
    assert res.expiry == expiry;
    if expiry.ExpiryRejected? {
      return Fail(ExpiryValid);
    }
    if |f.cvv| < 3 || |f.cvv| > 4 {
      assert !res.cvvLength;
      return Fail(CvvLength);
    }
    assert res.cvvLength;
    if JsTrim(f.address) == [] {
      assert !res.address;
      return Fail(AddressPresent);
    }
    assert res.address;
    if JsTrim(f.city) == [] {
      assert !res.city;
      return Fail(CityPresent);
    }
    assert res.city;
    if JsTrim(f.zip) == [] {
      assert !res.zip;
      return Fail(ZipPresent);
    }
    assert res.zip;
    return Pass;
  }

  /** The payment goes ahead exactly when every check passed; otherwise the
      alert names a check that failed and all of whose predecessors passed. */
  lemma DecisionMeaning(res: Results)
    ensures Decision(res).Pass? <==> forall c :: Passes(c, res)
    ensures Decision(res).Fail? ==>
              var c := Decision(res).error;
              !Passes(c, res) &&
              forall c' :: Rank(c') < Rank(c) ==> Passes(c', res)
  {
    if Decision(res).Pass? {
      forall c
        ensures Passes(c, res)
      {
        match c
        case NumberLength =>
        case NumberLuhn =>
        case NameLength =>
        case ExpiryValid =>
        case CvvLength =>
        case AddressPresent =>
        case CityPresent =>
        case ZipPresent =>
      }
    } else {
      var c := Decision(res).error;
      assert !Passes(c, res);
      forall c' | Rank(c') < Rank(c)
        ensures Passes(c', res)
      {
        match c'
        case NumberLength =>
        case NumberLuhn =>
        case NameLength =>
        case ExpiryValid =>
        case CvvLength =>
        case AddressPresent =>
        case CityPresent =>
        case ZipPresent =>
      }
    }
  }

  /** For a number field the handler formatted, the two number checks are
      checks on the digits typed: 13 to 19 of them, passing the Luhn check. */
  lemma FormattedNumberChecks(typed: string, f: CardForm, today: Today)
    requires f.number == FormatCardNumber(typed)
    ensures Evaluate(f, today).numberLength <==> 13 <= |DigitsOf(typed)| <= 19
    ensures Evaluate(f, today).numberLuhn <==> LuhnSum(DigitsOf(typed)) % 10 == 0
  {
    FormatCardNumberRoundTrip(typed);
  }
}
