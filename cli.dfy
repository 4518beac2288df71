/** The command grammar of the second variant's terminal loop
    (src/personal_assistant.py): the line is stripped, a few words end or
    explain the session, a few case-sensitive prefixes and exact phrases
    pick a task operation, and anything else is conversation. */
module Cli {
  import opened Text
  import opened Records

  /** What the loop does with one line. */
  datatype Action =
    | Quit
    | ShowHelp
    | Add(description: string)
    | Show
    | Complete(id: int)
    | BadId
    | Clear
    | Summarise
    | Talk(text: string)

  predicate IsDigit(c: char) { '0' <= c <= '9' }

  /** Python's `int()` on unsigned text: decimal digits, with single
      underscores allowed between two digits. Anything else is `None`. */
  function NumeralValue(s: string): (r: Option<nat>)
    ensures r.Some? ==> |s| > 0 && IsDigit(s[0]) && IsDigit(s[|s| - 1])
    ensures r.Some? ==> forall k :: 0 <= k < |s| ==> IsDigit(s[k]) || s[k] == '_'
    ensures |s| > 0 && (forall k :: 0 <= k < |s| ==> IsDigit(s[k])) ==> r == Some(DigitsValue(s))
    decreases |s|
  {
    if s == [] || !IsDigit(s[|s| - 1]) then None
    else
      var digit := s[|s| - 1] as int - '0' as int;
      var init := s[..|s| - 1];
      if init == [] then Some(digit)
      else
        var rest := if init[|init| - 1] == '_' then init[..|init| - 1] else init;
        match NumeralValue(rest)
        case None => None
        case Some(v) =>
          assert s == rest + s[|rest|..|s| - 1] + [s[|s| - 1]];
          Some(v * 10 + digit)
  }

  /** A numeral with at most one sign in front. */
  function SignedNumeral(t: string): (r: Option<int>)
    ensures r.Some? ==> t != [] && IsDigit(t[|t| - 1]) && (IsDigit(t[0]) || t[0] == '-' || t[0] == '+')
    ensures r.Some? ==> forall k :: 1 <= k < |t| ==> IsDigit(t[k]) || t[k] == '_'
    ensures r.Some? && r.value < 0 ==> t[0] == '-'
  {
    if t == [] then None
    else if t[0] == '-' || t[0] == '+' then
      match NumeralValue(t[1..])
      case None => None
      case Some(n) =>
        var value := if t[0] == '-' then -(n as int) else n;
        Some(value)
    else
      match NumeralValue(t)
      case None => None
      case Some(n) => Some(n)
  }

  /** Python's `int(s)` on text: surrounding whitespace is ignored, and
      text that is not a signed numeral is a `ValueError`, here `None`. */
  function ParseInt(s: string): (r: Option<int>)
    ensures r.Some? ==>
              var t := Strip(s);
              && t != [] && IsDigit(t[|t| - 1]) && (IsDigit(t[0]) || t[0] == '-' || t[0] == '+')
              && forall k :: 1 <= k < |t| ==> IsDigit(t[k]) || t[k] == '_'
    ensures var t := Strip(s);
            t != [] && (forall k :: 0 <= k < |t| ==> IsDigit(t[k])) ==> r == Some(DigitsValue(t))
  {
    SignedNumeral(Strip(s))
  }

  /** A decimal rendering is its own stripped form. */
  lemma IntToStringStripped(n: int)
    ensures Strip(IntToString(n)) == IntToString(n)
  {
    var r := IntToString(n);
    var digits := NatToString(if n < 0 then -n else n);
    assert r[|r| - 1] == digits[|digits| - 1];
    StripPadded([], r, []);
    assert [] + r + [] == r;
  }

  /** Reading back the rendering of a natural number gives the number. */
  lemma SignedNumeralOfNat(t: string, n: nat)
    requires t == NatToString(n)
    ensures SignedNumeral(t) == Some(n)
  {
    DigitsValueOfNatToString(n);
  }

  /** Reading back the rendering of a negative number gives the number. */
  lemma SignedNumeralOfNegative(t: string, m: nat)
    requires m > 0 && t == "-" + NatToString(m)
    ensures SignedNumeral(t) == Some(-(m as int))
  {
    assert t[1..] == NatToString(m);
    DigitsValueOfNatToString(m);
  }

  /** A decimal rendering, sign included, reads back as the number. */
  lemma SignedNumeralOfIntToString(n: int)
    ensures SignedNumeral(IntToString(n)) == Some(n)
  {
    if n < 0 {
      SignedNumeralOfNegative(IntToString(n), -n);
    } else {
      SignedNumeralOfNat(IntToString(n), n);
    }
  }

  /** Reading back a decimal rendering gives the number. */
  lemma ParseIntOfIntToString(n: int)
    ensures ParseInt(IntToString(n)) == Some(n)
  {
    var r := IntToString(n);
    IntToStringStripped(n);
    SignedNumeralOfIntToString(n);
    assert ParseInt(r) == SignedNumeral(r);
  }

  /** The decision of the loop for one line as typed. */
  function Route(raw: string): (r: Action)
    ensures r.Add? ==> StartsWith(Strip(raw), "add task ") && r.description == Strip(raw)[9..]
    ensures r.Talk? ==> r.text == Strip(raw)
    ensures r.Complete? || r.BadId? ==> StartsWith(Strip(raw), "complete task ")
  {
    var line := Strip(raw);
    var low := Lower(line);
    if low == "quit" || low == "exit" || low == "bye" then Quit
    else if low == "help" then ShowHelp
    else if StartsWith(line, "add task ") then Add(line[9..])
    else if line == "show tasks" then Show
    else if StartsWith(line, "complete task ") then
      match ParseInt(line[14..])
      case Some(id) => Complete(id)
      case None => BadId
    else if line == "clear session" then Clear
    else if line == "summary" then Summarise
    else Talk(line)
  }

  /** A line longer than four characters is neither a quit word nor "help",
      in any case. */
  lemma LongLineIsNoKeyword(line: string)
    requires |line| > 4
    ensures Lower(line) != "quit" && Lower(line) != "exit" && Lower(line) != "bye" && Lower(line) != "help"
  {
  }

  /** A stripped line starting with "add task " adds the rest of the line. */
  lemma RouteAddPrefix(line: string)
    requires Strip(line) == line && StartsWith(line, "add task ")
    ensures Route(line) == Add(line[9..])
  {
    LongLineIsNoKeyword(line);
  }

  /** "add task " followed by a description adds exactly that description,
      whatever its case or content. */
  lemma RouteAddTask(line: string, description: string)
    requires line == "add task " + description
    requires description != [] && !IsSpace(description[|description| - 1])
    ensures Route(line) == Add(description)
  {
    StripPadded([], line, []);
    assert [] + line + [] == line;
    assert line[..9] == "add task " && line[9..] == description;
    RouteAddPrefix(line);
  }

  /** A stripped line starting with "complete task " completes the id the
      rest of the line reads as, or reports an invalid id. */
  lemma RouteCompletePrefix(line: string)
    requires Strip(line) == line && StartsWith(line, "complete task ")
    ensures Route(line) == match ParseInt(line[14..]) case Some(id) => Complete(id) case None => BadId
  {
    LongLineIsNoKeyword(line);
    assert line[..9][0] == 'c';
    assert !StartsWith(line, "add task ");
    assert line[0] == 'c' && line != "show tasks";
  }

  /** "complete task " followed by a number completes that id. */
  lemma RouteCompleteTask(line: string, id: int)
    requires line == "complete task " + IntToString(id)
    ensures Route(line) == Complete(id)
  {
    var r := IntToString(id);
    assert line[|line| - 1] == r[|r| - 1];
    StripPadded([], line, []);
    assert [] + line + [] == line;
    assert line[..14] == "complete task " && line[14..] == r;
    RouteCompletePrefix(line);
    ParseIntOfIntToString(id);
  }

  /** Text that starts with neither a digit nor a sign is no integer. */
  lemma NonNumberRejected(rest: string)
    requires rest != [] && !IsSpace(rest[0]) && !IsSpace(rest[|rest| - 1])
    requires !IsDigit(rest[0]) && rest[0] != '-' && rest[0] != '+'
    ensures ParseInt(rest) == None
  {
    StripPadded([], rest, []);
    assert [] + rest + [] == rest;
    assert NumeralValue(rest) == None;
  }

  /** "complete task " followed by text that cannot start a number is
      answered as an invalid id, and nothing is completed. */
  lemma RouteCompleteNonNumber(line: string, rest: string)
    requires line == "complete task " + rest
    requires rest != [] && !IsSpace(rest[0]) && !IsSpace(rest[|rest| - 1])
    requires !IsDigit(rest[0]) && rest[0] != '-' && rest[0] != '+'
    ensures Route(line) == BadId
  {
    NonNumberRejected(rest);
    assert line[|line| - 1] == rest[|rest| - 1];
    StripPadded([], line, []);
    assert [] + line + [] == line;
    assert line[..14] == "complete task " && line[14..] == rest;
    RouteCompletePrefix(line);
  }
}
