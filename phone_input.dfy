/**
 * components/ui/phone-input.tsx: a country picker next to a number field. The value is
 * one string, a country code followed by the number. The widget parses it into a code and
 * a number, shows the selected country's code on its button and the parsed number in its
 * field, strips non-digits from what is typed, and re-prefixes the number when the country changes.
 */
module PhoneInput {
  import opened Wrappers
  import opened Text

  datatype Country = Country(code: string, name: string, flag: string)

  /** The fifteen countries offered, in the order `find` tries them. */
  const Countries: seq<Country> := [
    Country("+1", "United States", "\U{1F1FA}\U{1F1F8}"),
    Country("+44", "United Kingdom", "\U{1F1EC}\U{1F1E7}"),
    Country("+91", "India", "\U{1F1EE}\U{1F1F3}"),
    Country("+86", "China", "\U{1F1E8}\U{1F1F3}"),
    Country("+81", "Japan", "\U{1F1EF}\U{1F1F5}"),
    Country("+49", "Germany", "\U{1F1E9}\U{1F1EA}"),
    Country("+33", "France", "\U{1F1EB}\U{1F1F7}"),
    Country("+61", "Australia", "\U{1F1E6}\U{1F1FA}"),
    Country("+55", "Brazil", "\U{1F1E7}\U{1F1F7}"),
    Country("+52", "Mexico", "\U{1F1F2}\U{1F1FD}"),
    Country("+34", "Spain", "\U{1F1EA}\U{1F1F8}"),
    Country("+39", "Italy", "\U{1F1EE}\U{1F1F9}"),
    Country("+82", "South Korea", "\U{1F1F0}\U{1F1F7}"),
    Country("+7", "Russia", "\U{1F1F7}\U{1F1FA}"),
    Country("+31", "Netherlands", "\U{1F1F3}\U{1F1F1}")
  ]

  /** The shape of every listed code: "+" and one digit, 1 or 7, or "+" and two digits not starting with 1 or 7. */
  lemma CodeShape(k: nat)
    requires k < |Countries|
    ensures var code := Countries[k].code;
      && 2 <= |code| <= 3 && code[0] == '+'
      && (|code| == 2 <==> code[1] == '1' || code[1] == '7')
  {
  }

  /** Where a listed code sits in the list (`countries.findIndex(c => c.code === code)`), or -1. */
  function IndexOfCode(code: string): int {
    if code == "+1" then 0 else if code == "+44" then 1 else if code == "+91" then 2
    else if code == "+86" then 3 else if code == "+81" then 4 else if code == "+49" then 5
    else if code == "+33" then 6 else if code == "+61" then 7 else if code == "+55" then 8
    else if code == "+52" then 9 else if code == "+34" then 10 else if code == "+39" then 11
    else if code == "+82" then 12 else if code == "+7" then 13 else if code == "+31" then 14
    else -1
  }

  /** Each listed code is found at its own position, so no two countries share a code. */
  lemma IndexOfCodeInverts(k: nat)
    requires k < |Countries|
    ensures IndexOfCode(Countries[k].code) == k
  {
  }

  /** No listed code is a prefix of another listed code. */
  lemma CodesPrefixFree(i: nat, j: nat)
    requires i < |Countries| && j < |Countries| && i != j
    ensures !IsPrefix(Countries[i].code, Countries[j].code)
  {
    var a, b := Countries[i].code, Countries[j].code;
    CodeShape(i);
    CodeShape(j);
    IndexOfCodeInverts(i);
    IndexOfCodeInverts(j);
    // a prefix would share the second character, hence the length, hence be the same code
  }

  /** Two prefixes of one string: the shorter is a prefix of the longer. */
  lemma PrefixesOfOne(a: string, b: string, v: string)
    requires IsPrefix(a, v) && IsPrefix(b, v)
    ensures IsPrefix(a, b) || IsPrefix(b, a)
  {
    if |a| <= |b| {
      assert b[..|a|] == v[..|a|];
    } else {
      assert a[..|b|] == v[..|b|];
    }
  }

  /** `countries.find(c => value.startsWith(c.code))`: the first country whose code starts the value. */
  function FindByPrefix(cs: seq<Country>, value: string): (r: Option<Country>)
    ensures r.Some? ==> r.value in cs && IsPrefix(r.value.code, value)
    ensures r.None? ==> forall c :: c in cs ==> !IsPrefix(c.code, value)
    decreases |cs|
  {
    if cs == [] then None
    else if IsPrefix(cs[0].code, value) then Some(cs[0])
    else FindByPrefix(cs[1..], value)
  }

  /** When only `c` in `cs` starts the value, `find` returns `c`. */
  lemma {:induction false} FindUnique(cs: seq<Country>, value: string, c: Country)
    requires c in cs && IsPrefix(c.code, value)
    requires forall d :: d in cs && IsPrefix(d.code, value) ==> d == c
    ensures FindByPrefix(cs, value) == Some(c)
    decreases |cs|
  {
    if cs[0] != c {
      FindUnique(cs[1..], value, c);
    }
  }

  /** A value that starts with a listed code is attributed to that country, whatever follows. */
  lemma FindListed(k: nat, rest: string)
    requires k < |Countries|
    ensures FindByPrefix(Countries, Countries[k].code + rest) == Some(Countries[k])
  {
    var v := Countries[k].code + rest;
    assert v[..|Countries[k].code|] == Countries[k].code;
    forall j | 0 <= j < |Countries| && j != k ensures !IsPrefix(Countries[j].code, v) {
      CodesPrefixFree(j, k);
      CodesPrefixFree(k, j);
      if IsPrefix(Countries[j].code, v) {
        PrefixesOfOne(Countries[j].code, Countries[k].code, v);
      }
    }
    FindUnique(Countries, v, Countries[k]);
  }

  /** The code parsed from a value: the first matching country's, else the selected one (`?.code || selectedCountry.code`). */
  function CodeOf(value: string, selectedCode: string): (code: string)
    ensures code == selectedCode || exists k :: 0 <= k < |Countries| && code == Countries[k].code
    ensures FindByPrefix(Countries, value).Some? ==> code == FindByPrefix(Countries, value).value.code
    ensures FindByPrefix(Countries, value).None? ==> code == selectedCode
  {
    match FindByPrefix(Countries, value)
    case Some(c) => if c.code != "" then c.code else selectedCode
    case None => selectedCode
  }

  /** The `useMemo` split: the code, and the value with the first occurrence of the code cut out, trimmed. */
  function SplitValue(value: string, selectedCode: string): (string, string) {
    var code := CodeOf(value, selectedCode);
    (code, Trim(RemoveFirst(value, code)))
  }

  /** Splitting a listed code followed by a trimmed number gives back both parts, whichever country is selected. */
  lemma SplitRoundTrip(k: nat, number: string, selectedCode: string)
    requires k < |Countries| && Trim(number) == number
    ensures SplitValue(Countries[k].code + number, selectedCode) == (Countries[k].code, number)
  {
    FindListed(k, number);
    CodeShape(k);
    var v := Countries[k].code + number;
    assert IsPrefix(Countries[k].code, v) && v[|Countries[k].code|..] == number;
  }

  /** A string of digits is its own trim. */
  lemma DigitsTrimmed(d: string)
    requires AllDigits(d)
    ensures Trim(d) == d
  {
    if d != [] {
      assert IsDigit(d[0]) && IsDigit(d[|d| - 1]);
      TrimOfTrimmed(d);
    }
  }

  /** Trimming twice is trimming once. */
  lemma TrimIdempotent(s: string)
    ensures Trim(Trim(s)) == Trim(s)
  {
    TrimSpec(s);
    TrimOfTrimmed(Trim(s));
  }

  /** What typing emits: the selected code and the digits of the input (`replace(/\D/g, "")`). */
  function TypedValue(selectedCode: string, typed: string): string {
    selectedCode + DigitsOnly(typed)
  }

  /** The value emitted on typing, with the code the value already carries kept (see Findings). */
  function TypedValueKeepingCode(value: string, selectedCode: string, typed: string): string {
    SplitValue(value, selectedCode).0 + DigitsOnly(typed)
  }

  /**
   * As written, typing re-prefixes the number with the selected country's code, even when
   * the value came with another listed code: a stored "+44 …" number, with the default
   * selection (United States), becomes a "+1 …" number on the first keystroke.
   */
  lemma TypingReplacesParsedCode(k: nat, number: string, typed: string)
    requires 0 < k < |Countries| && AllDigits(number)
    ensures SplitValue(Countries[k].code + number, Countries[0].code).0 == Countries[k].code
    ensures SplitValue(TypedValue(Countries[0].code, typed), Countries[0].code).0 == Countries[0].code
    ensures Countries[0].code != Countries[k].code
  {
    DigitsTrimmed(number);
    SplitRoundTrip(k, number, Countries[0].code);
    DigitsTrimmed(DigitsOnly(typed));
    SplitRoundTrip(0, DigitsOnly(typed), Countries[0].code);
    IndexOfCodeInverts(0);
    IndexOfCodeInverts(k);
  }

  /** Keeping the parsed code, typing changes only the number: the country of the value is preserved. */
  lemma TypingKeepsCountry(value: string, selected: nat, typed: string)
    requires selected < |Countries|
    ensures var code := SplitValue(value, Countries[selected].code).0;
      SplitValue(TypedValueKeepingCode(value, Countries[selected].code, typed), Countries[selected].code)
        == (code, DigitsOnly(typed))
  {
    var code := SplitValue(value, Countries[selected].code).0;
    var k :| 0 <= k < |Countries| && code == Countries[k].code;
    DigitsTrimmed(DigitsOnly(typed));
    SplitRoundTrip(k, DigitsOnly(typed), Countries[selected].code);
  }

  /** The number parsed from a value, put after a listed code, parses back as that code and that number. */
  lemma SelectKeepsNumber(value: string, selectedCode: string, country: Country)
    requires country in Countries
    ensures var number := SplitValue(value, selectedCode).1;
      SplitValue(country.code + number, country.code) == (country.code, number)
  {
    var k :| 0 <= k < |Countries| && Countries[k] == country;
    TrimIdempotent(RemoveFirst(value, CodeOf(value, selectedCode)));
    SplitRoundTrip(k, SplitValue(value, selectedCode).1, country.code);
  }

  /** The widget's own state: the selected country and whether the country list is open. */
  class PhoneInputState {
    var selected: Country
    var open: bool

    ghost predicate Valid()
      reads this
    {
      selected in Countries
    }

    constructor ()
      ensures selected == Countries[0] && !open && Valid()
    {
      selected := Countries[0];
      open := false;
    }

    /** The `useMemo` pair for the current value: the parsed code and the number the field shows. */
    function Parsed(value: string): (string, string)
      reads this
    {
      SplitValue(value, selected.code)
    }

    /** `handleCountrySelect`: select the country, emit its code before the parsed number, close the list. */
    method HandleCountrySelect(value: string, country: Country) returns (emitted: string)
      requires country in Countries
      modifies this
      ensures selected == country && !open && Valid()
      ensures emitted == country.code + old(Parsed(value)).1
      ensures Parsed(emitted) == (country.code, old(Parsed(value)).1)
    {
      var number := Parsed(value).1;
      SelectKeepsNumber(value, selected.code, country);
      selected := country;
      emitted := country.code + number;
      open := false;
    }

    /** `handlePhoneNumberChange`: emit the selected code followed by the digits typed. */
    method HandlePhoneNumberChange(typed: string) returns (emitted: string)
      requires Valid()
      ensures emitted == TypedValue(selected.code, typed)
      ensures AllDigits(emitted[|selected.code|..])
      ensures Parsed(emitted) == (selected.code, DigitsOnly(typed))
    {
      emitted := selected.code + DigitsOnly(typed);
      var k :| 0 <= k < |Countries| && Countries[k] == selected;
      DigitsTrimmed(DigitsOnly(typed));
      SplitRoundTrip(k, DigitsOnly(typed), selected.code);
      assert emitted[|selected.code|..] == DigitsOnly(typed);
    }
  }
}
