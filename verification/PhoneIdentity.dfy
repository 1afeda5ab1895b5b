// Phone normalisation and the guarded customer lookup.
module PhoneIdentity {
  import opened Models

  // Which characters count as digits (the full Unicode class in the program).
  type DigitClass = char -> bool

  predicate Lawful(digit: DigitClass) {
    digit('1') && !digit('+')
  }

  function Digits(digit: DigitClass, s: string): string {
    if s == "" then "" else (if digit(s[0]) then [s[0]] else "") + Digits(digit, s[1..])
  }

  // The number without a North-American country code.
  function National(digit: DigitClass, s: string): string {
    var d := Digits(digit, s);
    if |d| == 11 && d[0] == '1' then d[1..] else d
  }

  // list(dict.fromkeys(s))
  function Distinct(s: seq<string>): (r: seq<string>)
    ensures forall x :: x in r <==> x in s
  {
    if s == [] then []
    else
      var front := Distinct(s[..|s| - 1]);
      assert s == s[..|s| - 1] + [s[|s| - 1]];
      if s[|s| - 1] in front then front else front + [s[|s| - 1]]
  }

  // _normalize_phone_candidates
  function Candidates(digit: DigitClass, raw: string): seq<string> {
    var d := Digits(digit, raw);
    Distinct(
      if |d| == 10 then [raw, "+1" + d, d]
      else if |d| == 11 && d[0] == '1' then [raw, "+" + d, d[1..]]
      else [raw])
  }

  lemma {:induction false} DigitsOfDigits(digit: DigitClass, s: string)
    ensures forall c :: c in Digits(digit, s) ==> digit(c)
    ensures (forall c :: c in s ==> digit(c)) ==> Digits(digit, s) == s
  {
    if s != "" {
      DigitsOfDigits(digit, s[1..]);
      assert s == [s[0]] + s[1..];
    }
  }

  lemma DigitsCons(digit: DigitClass, c: char, s: string)
    ensures Digits(digit, [c] + s) == (if digit(c) then [c] else "") + Digits(digit, s)
  {
    assert ([c] + s)[1..] == s;
  }

  lemma DigitOfOne(digit: DigitClass, c: char)
    ensures Digits(digit, "") == ""
    ensures Digits(digit, [c]) == if digit(c) then [c] else ""
  {
    assert [c][1..] == "";
  }

  // Digits are kept in order (DigitOfOne says which characters they are).
  lemma {:induction false} DigitsExact(digit: DigitClass, a: string, b: string)
    ensures Digits(digit, a + b) == Digits(digit, a) + Digits(digit, b)
  {
    hide Digits;
    if a == "" {
      assert a + b == b;
      DigitOfOne(digit, '0');
    } else {
      DigitsExact(digit, a[1..], b);
      assert a + b == [a[0]] + (a[1..] + b) && a == [a[0]] + a[1..];
      DigitsCons(digit, a[0], a[1..] + b);
      DigitsCons(digit, a[0], a[1..]);
    }
  }

  // A ten-digit national number is the digits themselves or the digits behind a one; any other number is
  // its digits.
  lemma NationalExact(digit: DigitClass, s: string, n: string)
    requires |n| == 10
    ensures National(digit, s) == n <==> Digits(digit, s) == n || Digits(digit, s) == "1" + n
    ensures |National(digit, s)| != 10 ==> National(digit, s) == Digits(digit, s)
  {
    hide Digits;
    var d := Digits(digit, s);
    assert |d| == 11 && d[0] == '1' ==> d == "1" + d[1..];
    assert d == "1" + n ==> d[1..] == n;
  }

  // The candidates are the raw spelling and, when the national number has ten digits, its two
  // standard spellings; nothing else.
  lemma CandidatesExact(digit: DigitClass, raw: string, x: string)
    requires Lawful(digit)
    ensures var n := National(digit, raw);
      x in Candidates(digit, raw) <==> x == raw || (|n| == 10 && (x == "+1" + n || x == n))
  {
    var d := Digits(digit, raw);
    if |d| == 11 && d[0] == '1' {
      assert d == "1" + d[1..];
      assert "+" + d == "+1" + d[1..];
    }
  }

  // The standard spellings of a ten-digit number denote it.
  lemma StandardSpellings(digit: DigitClass, n: string)
    requires Lawful(digit) && |n| == 10 && forall c :: c in n ==> digit(c)
    ensures National(digit, n) == n && National(digit, "+1" + n) == n
  {
    hide Digits;
    DigitsOfDigits(digit, n);
    assert "+1" + n == ['+'] + (['1'] + n);
    DigitsCons(digit, '+', ['1'] + n);
    DigitsCons(digit, '1', n);
    assert (['1'] + n)[1..] == n;
  }

  lemma NationalIsDigits(digit: DigitClass, s: string)
    ensures forall c :: c in National(digit, s) ==> digit(c)
  {
    DigitsOfDigits(digit, s);
    assert forall c :: c in National(digit, s) ==> c in Digits(digit, s);
  }

  // Every candidate denotes the input's national number.
  lemma CandidatesKeepNumber(digit: DigitClass, raw: string, x: string)
    requires Lawful(digit) && x in Candidates(digit, raw)
    ensures National(digit, x) == National(digit, raw)
  {
    hide Candidates, National;
    CandidatesExact(digit, raw, x);
    if x != raw {
      NationalIsDigits(digit, raw);
      StandardSpellings(digit, National(digit, raw));
    }
  }

  // ---- Looking a customer up ----

  datatype Customer = Customer(accountId: string, phone: string, email: string)

  datatype Lookup =
    | Found(customer: Customer)
    | NotFound
    | Ambiguous          // several rows match: the query raises
    | NoIdentifier       // the arguments name nobody: raises
    | NoVerifiedNumber
    | NotTheCaller

  function Select(rows: seq<Customer>, matches: Customer -> bool): (r: seq<Customer>)
    ensures forall c :: c in r <==> c in rows && matches(c)
  {
    if rows == [] then []
    else (if matches(rows[0]) then [rows[0]] else []) + Select(rows[1..], matches)
  }

  // scalar_one_or_none
  function OneOrNone(rows: seq<Customer>): Lookup {
    if rows == [] then NotFound else if |rows| == 1 then Found(rows[0]) else Ambiguous
  }

  function FindCustomer(digit: DigitClass, rows: seq<Customer>, identifier: string, kind: string): Lookup {
    if kind == "phone" then
      var candidates := Candidates(digit, identifier);
      OneOrNone(Select(rows, (c: Customer) => c.phone in candidates))
    else if kind == "email" then OneOrNone(Select(rows, (c: Customer) => c.email == identifier))
    else OneOrNone(Select(rows, (c: Customer) => c.accountId == identifier))
  }

  // The first of the keys with a non-empty value, or "".
  function FirstOf(args: map<string, string>, keys: seq<string>): string {
    if keys == [] then ""
    else if keys[0] in args && args[keys[0]] != "" then args[keys[0]]
    else FirstOf(args, keys[1..])
  }

  function Get(args: map<string, string>, key: string): string {
    if key in args then args[key] else ""
  }

  // _resolve_lookup_args
  function ResolveIdentifier(args: map<string, string>): string {
    FirstOf(args, ["identifier", "customer_identifier", "customer_id", "account_id", "phone_number", "email"])
  }

  function ResolveKind(args: map<string, string>): string {
    var identifier := ResolveIdentifier(args);
    var kind := Get(args, "identifier_type");
    if kind != "" then kind
    else if Get(args, "email") != "" || '@' in identifier then "email"
    else if Get(args, "phone_number") != "" || (identifier != "" && identifier[0] == '+') then "phone"
    else "account_id"
  }

  // lookup_customer as dispatched, for a caller whose verified number is `verified` ("" if unknown).
  function LookupCustomer(digit: DigitClass, rows: seq<Customer>, args: map<string, string>, verified: string): Lookup {
    var identifier, kind := ResolveIdentifier(args), ResolveKind(args);
    if identifier == "" then NoIdentifier
    else if kind == "phone" && verified == "" then NoVerifiedNumber
    else if kind == "phone" && identifier !in Candidates(digit, verified) then NotTheCaller
    else FindCustomer(digit, rows, identifier, kind)
  }

  // Whatever number the model supplies, a customer matched by phone has the verified caller's number.
  lemma PhoneMatchIsTheCaller(digit: DigitClass, rows: seq<Customer>, args: map<string, string>, verified: string)
    requires Lawful(digit)
    requires ResolveKind(args) == "phone" && LookupCustomer(digit, rows, args, verified).Found?
    ensures var c := LookupCustomer(digit, rows, args, verified).customer;
      && c in rows && National(digit, c.phone) == National(digit, verified)
      && National(digit, ResolveIdentifier(args)) == National(digit, verified)
  {
    hide Candidates, ResolveIdentifier, ResolveKind, National;
    var identifier := ResolveIdentifier(args);
    var candidates := Candidates(digit, identifier);
    var c := LookupCustomer(digit, rows, args, verified).customer;
    assert c in Select(rows, (c: Customer) => c.phone in candidates);
    CandidatesKeepNumber(digit, verified, identifier);
    CandidatesKeepNumber(digit, identifier, c.phone);
  }

  // Rows in one of the spellings a look-up tries.
  predicate Tried(digit: DigitClass, row: Customer, identifier: string) {
    var n := National(digit, identifier);
    row.phone == identifier || (|n| == 10 && (row.phone == "+1" + n || row.phone == n))
  }

  predicate OneMatches(rows: seq<Customer>, matches: Customer -> bool) {
    exists i :: 0 <= i < |rows| && matches(rows[i])
  }

  predicate TwoMatch(rows: seq<Customer>, matches: Customer -> bool) {
    exists i, j :: 0 <= i < j < |rows| && matches(rows[i]) && matches(rows[j])
  }

  lemma TwoMatchCons(rows: seq<Customer>, matches: Customer -> bool)
    requires rows != []
    ensures TwoMatch(rows, matches) <==>
      TwoMatch(rows[1..], matches) || (matches(rows[0]) && OneMatches(rows[1..], matches))
  {
    var rest := rows[1..];
    if i, j :| 0 <= i < j < |rest| && matches(rest[i]) && matches(rest[j]) {
      assert matches(rows[i + 1]) && matches(rows[j + 1]);
    }
    if i :| 0 <= i < |rest| && matches(rest[i]) {
      assert matches(rows[i + 1]);
    }
    if i, j :| 0 <= i < j < |rows| && matches(rows[i]) && matches(rows[j]) {
      assert matches(rest[j - 1]) && (i > 0 ==> matches(rest[i - 1]));
    }
  }

  lemma SelectSome(rows: seq<Customer>, matches: Customer -> bool)
    ensures Select(rows, matches) != [] <==> OneMatches(rows, matches)
  {
    var found := Select(rows, matches);
    assert found != [] ==> found[0] in found;
    if i :| 0 <= i < |rows| && matches(rows[i]) {
      assert rows[i] in found;
    }
  }

  lemma {:induction false} SelectTwo(rows: seq<Customer>, matches: Customer -> bool)
    ensures |Select(rows, matches)| >= 2 <==> TwoMatch(rows, matches)
  {
    hide TwoMatch, OneMatches;
    if rows == [] {
      NoneMatch(matches);
    } else {
      SelectTwo(rows[1..], matches);
      SelectSome(rows[1..], matches);
      TwoMatchCons(rows, matches);
    }
  }

  lemma NoneMatch(matches: Customer -> bool)
    ensures !TwoMatch([], matches)
  {
  }

  // What a look-up by phone answers, for every table: nobody without a row in one of the tried spellings,
  // an exception exactly when there are two, which the unique column allows in different spellings of one
  // number, and otherwise the one such row.
  lemma PhoneLookupExact(digit: DigitClass, rows: seq<Customer>, identifier: string)
    requires Lawful(digit)
    ensures var r := FindCustomer(digit, rows, identifier, "phone");
      && (r.NotFound? <==> forall i :: 0 <= i < |rows| ==> !Tried(digit, rows[i], identifier))
      && (r.Ambiguous? <==>
            exists i, j :: 0 <= i < j < |rows| && Tried(digit, rows[i], identifier)
              && Tried(digit, rows[j], identifier))
      && (r.NotFound? || r.Ambiguous? || (r.Found? && r.customer in rows && Tried(digit, r.customer, identifier)))
  {
    hide National, Candidates;
    var candidates := Candidates(digit, identifier);
    var matches := (c: Customer) => c.phone in candidates;
    forall row: Customer
      ensures matches(row) <==> Tried(digit, row, identifier)
    {
      CandidatesExact(digit, identifier, row.phone);
    }
    SelectTwo(rows, matches);
    SelectSome(rows, matches);
    var found := Select(rows, matches);
    assert |found| == 1 ==> found[0] in found;
  }

  // The identifier is the value of the first of six keys that has one.
  lemma IdentifierExact(args: map<string, string>, i: nat)
    requires i < 6
    ensures var keys := ["identifier", "customer_identifier", "customer_id", "account_id", "phone_number", "email"];
      && ((Get(args, keys[i]) != "" && forall j :: 0 <= j < i ==> Get(args, keys[j]) == "") ==>
            ResolveIdentifier(args) == Get(args, keys[i]))
      && ((forall j :: 0 <= j < 6 ==> Get(args, keys[j]) == "") ==> ResolveIdentifier(args) == "")
  {
    hide Get;
    FirstOfExact(args, ["identifier", "customer_identifier", "customer_id", "account_id", "phone_number", "email"], i);
  }

  lemma {:induction false} FirstOfExact(args: map<string, string>, keys: seq<string>, i: nat)
    requires i < |keys|
    ensures (Get(args, keys[i]) != "" && forall j :: 0 <= j < i ==> Get(args, keys[j]) == "") ==>
      FirstOf(args, keys) == Get(args, keys[i])
    ensures (forall j :: 0 <= j < |keys| ==> Get(args, keys[j]) == "") ==> FirstOf(args, keys) == ""
  {
    var rest := keys[1..];
    if |rest| > 0 {
      FirstOfExact(args, rest, if i == 0 then 0 else i - 1);
    }
    assert forall j :: 0 <= j < |rest| ==> rest[j] == keys[j + 1];
  }

  // The kind is the declared one. Undeclared, an address decides for e-mail, then a number for phone.
  lemma KindExact(args: map<string, string>)
    ensures var declared, kind, identifier := Get(args, "identifier_type"), ResolveKind(args), ResolveIdentifier(args);
      var address := Get(args, "email") != "" || exists i :: 0 <= i < |identifier| && identifier[i] == '@';
      var number := Get(args, "phone_number") != "" || (identifier != "" && identifier[0] == '+');
      && (declared != "" ==> kind == declared)
      && (declared == "" ==> kind in {"email", "phone", "account_id"})
      && (declared == "" ==> (kind == "email" <==> address))
      && (declared == "" ==> (kind == "phone" <==> number && !address))
  {
    hide ResolveIdentifier;
  }

  predicate Named(kind: string, identifier: string, row: Customer) {
    if kind == "email" then row.email == identifier else row.accountId == identifier
  }

  // What a look-up answers without a phone number: the row with that address, or with that account for every
  // other kind; the guard has no part in it.
  lemma OtherLookupExact(digit: DigitClass, rows: seq<Customer>, args: map<string, string>, verified: string)
    requires ResolveKind(args) != "phone"
    ensures var r, kind, x := LookupCustomer(digit, rows, args, verified), ResolveKind(args), ResolveIdentifier(args);
      && (r.NoIdentifier? <==> x == "")
      && (x != "" ==>
            && (r.NotFound? <==> forall i :: 0 <= i < |rows| ==> !Named(kind, x, rows[i]))
            && (r.Ambiguous? <==>
                  exists i, j :: 0 <= i < j < |rows| && Named(kind, x, rows[i]) && Named(kind, x, rows[j]))
            && (r.NotFound? || r.Ambiguous?
                || (r.Found? && r.customer in rows && Named(kind, x, r.customer))))
  {
    hide ResolveKind, ResolveIdentifier;
    var x, kind := ResolveIdentifier(args), ResolveKind(args);
    var matches := if kind == "email" then (c: Customer) => c.email == x else (c: Customer) => c.accountId == x;
    assert forall row: Customer :: matches(row) <==> Named(kind, x, row);
    SelectTwo(rows, matches);
    SelectSome(rows, matches);
    var found := Select(rows, matches);
    assert |found| == 1 ==> found[0] in found;
  }

  // Whom the guard lets through, and what the look-up then answers: exactly the verified number as it is and,
  // when its national number has ten digits, the two standard spellings of that.
  lemma GuardedLookupExact(digit: DigitClass, rows: seq<Customer>, args: map<string, string>, verified: string)
    requires Lawful(digit) && ResolveKind(args) == "phone"
    ensures var r, x, n := LookupCustomer(digit, rows, args, verified), ResolveIdentifier(args),
                             National(digit, verified);
      var passes := x == verified || (|n| == 10 && (x == "+1" + n || x == n));
      && (r.NoIdentifier? <==> x == "")
      && (r.NoVerifiedNumber? <==> x != "" && verified == "")
      && (r.NotTheCaller? <==> x != "" && verified != "" && !passes)
      && (x != "" && verified != "" && passes ==>
            && (r.NotFound? <==> forall i :: 0 <= i < |rows| ==> !Tried(digit, rows[i], x))
            && (r.Ambiguous? <==>
                  exists i, j :: 0 <= i < j < |rows| && Tried(digit, rows[i], x) && Tried(digit, rows[j], x))
            && (r.NotFound? || r.Ambiguous? || (r.Found? && r.customer in rows && Tried(digit, r.customer, x))))
  {
    hide ResolveKind, ResolveIdentifier, Candidates, National, FindCustomer, Tried;
    var x := ResolveIdentifier(args);
    CandidatesExact(digit, verified, x);
    PhoneLookupExact(digit, rows, x);
  }

  lemma RowIsReached(digit: DigitClass, rows: seq<Customer>, row: Customer, verified: string, identifier: string)
    requires Lawful(digit) && |National(digit, verified)| == 10
    requires identifier in Candidates(digit, verified)
    requires row in rows
    requires row.phone == "+1" + National(digit, verified) || row.phone == National(digit, verified)
    ensures var r := FindCustomer(digit, rows, identifier, "phone");
      && (r.Ambiguous? <==>
            exists i, j :: 0 <= i < j < |rows| && Tried(digit, rows[i], identifier)
              && Tried(digit, rows[j], identifier))
      && (!r.Ambiguous? ==> r == Found(row) && National(digit, row.phone) == National(digit, verified))
  {
    hide Candidates, National, FindCustomer;
    CandidatesKeepNumber(digit, verified, identifier);
    PhoneLookupExact(digit, rows, identifier);
    CandidatesExact(digit, identifier, row.phone);
    CandidatesKeepNumber(digit, identifier, row.phone);
    var k :| 0 <= k < |rows| && rows[k] == row;
    assert Tried(digit, rows[k], identifier);
    var r := FindCustomer(digit, rows, identifier, "phone");
    if r.Found? {
      var m :| 0 <= m < |rows| && rows[m] == r.customer;
      assert m < k || k < m || rows[m] == rows[k];
    }
  }

  // With a row in a standard spelling of the verified ten-digit number somewhere in the table, every
  // spelling the guard lets through reaches a customer with that number, unless there is a second tried row.
  lemma StandardRowIsReached(digit: DigitClass, rows: seq<Customer>, row: Customer, args: map<string, string>,
                             verified: string)
    requires Lawful(digit) && ResolveKind(args) == "phone" && ResolveIdentifier(args) != ""
    requires var n, x := National(digit, verified), ResolveIdentifier(args);
      && |n| == 10 && (x == verified || x == "+1" + n || x == n)
      && row in rows && (row.phone == "+1" + n || row.phone == n)
    ensures var r, x := LookupCustomer(digit, rows, args, verified), ResolveIdentifier(args);
      && (r.Ambiguous? <==>
            exists i, j :: 0 <= i < j < |rows| && Tried(digit, rows[i], x) && Tried(digit, rows[j], x))
      && (!r.Ambiguous? ==> r == Found(row) && National(digit, row.phone) == National(digit, verified))
  {
    hide Candidates, FindCustomer, LookupCustomer, ResolveKind, ResolveIdentifier, National;
    SomeoneVerified(digit, verified);
    var x := ResolveIdentifier(args);
    CandidatesExact(digit, verified, x);
    GuardPasses(digit, rows, args, verified);
    RowIsReached(digit, rows, row, verified, x);
  }

  lemma GuardPasses(digit: DigitClass, rows: seq<Customer>, args: map<string, string>, verified: string)
    requires ResolveKind(args) == "phone" && ResolveIdentifier(args) != "" && verified != ""
    requires ResolveIdentifier(args) in Candidates(digit, verified)
    ensures LookupCustomer(digit, rows, args, verified) == FindCustomer(digit, rows, ResolveIdentifier(args), "phone")
  {
  }

  lemma SomeoneVerified(digit: DigitClass, verified: string)
    ensures |National(digit, verified)| == 10 ==> verified != ""
  {
  }
}
