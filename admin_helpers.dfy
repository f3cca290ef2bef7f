/** `src/utils/adminHelpers.ts`: label lookups, status colours, the growth rate,
    the validators, `sanitizeInput`, `formatTimeAgo`, `groupBy`, `chunk` and the
    permission predicates over role-name lists. */
module AdminHelpers {
  import opened Wrappers
  import opened Strings
  import opened Dicts
  import Lists

  // ---------------------------------------------------------------- labels

  /** `table[key] || key`: the mapped label, or the key itself when unmapped. */
  function LabelOr(table: map<string, string>, key: string): string {
    if key in table && table[key] != [] then table[key] else key
  }

  const RoleLabels: map<string, string> := map[
    "participant" := "Participant", "admin" := "Admin", "super_admin" := "Super Admin",
    "program_manager" := "Program Manager", "client_admin" := "Client Admin"]

  const BusinessTypeLabels: map<string, string> := map[
    "formal" := "Formal Business", "informal" := "Informal Business", "startup" := "Startup",
    "cooperative" := "Cooperative", "franchise" := "Franchise"]

  const ApplicationStatusLabels: map<string, string> := map[
    "draft" := "Draft", "submitted" := "Submitted", "under_review" := "Under Review",
    "approved" := "Approved", "rejected" := "Rejected"]

  const RegistrationStatusLabels: map<string, string> := map[
    "pending" := "Pending Review", "under_review" := "Under Review", "approved" := "Approved",
    "rejected" := "Rejected", "requires_documents" := "Requires Documents"]

  function FormatUserRole(role: string): (r: string)
    ensures role == "participant" ==> r == "Participant"
    ensures role == "admin" ==> r == "Admin"
    ensures role == "super_admin" ==> r == "Super Admin"
    ensures role == "program_manager" ==> r == "Program Manager"
    ensures role == "client_admin" ==> r == "Client Admin"
    ensures role !in {"participant", "admin", "super_admin", "program_manager", "client_admin"} ==> r == role
  {
    LabelOr(RoleLabels, role)
  }

  function FormatBusinessType(t: string): (r: string)
    ensures t == "formal" ==> r == "Formal Business"
    ensures t == "informal" ==> r == "Informal Business"
    ensures t == "startup" ==> r == "Startup"
    ensures t == "cooperative" ==> r == "Cooperative"
    ensures t == "franchise" ==> r == "Franchise"
    ensures t !in {"formal", "informal", "startup", "cooperative", "franchise"} ==> r == t
  {
    LabelOr(BusinessTypeLabels, t)
  }

  function FormatApplicationStatus(s: string): (r: string)
    ensures s == "draft" ==> r == "Draft"
    ensures s == "submitted" ==> r == "Submitted"
    ensures s == "under_review" ==> r == "Under Review"
    ensures s == "approved" ==> r == "Approved"
    ensures s == "rejected" ==> r == "Rejected"
    ensures s !in {"draft", "submitted", "under_review", "approved", "rejected"} ==> r == s
  {
    LabelOr(ApplicationStatusLabels, s)
  }

  function FormatRegistrationStatus(s: string): (r: string)
    ensures s == "pending" ==> r == "Pending Review"
    ensures s == "under_review" ==> r == "Under Review"
    ensures s == "approved" ==> r == "Approved"
    ensures s == "rejected" ==> r == "Rejected"
    ensures s == "requires_documents" ==> r == "Requires Documents"
    ensures s !in {"pending", "under_review", "approved", "rejected", "requires_documents"} ==> r == s
  {
    LabelOr(RegistrationStatusLabels, s)
  }

  // ---------------------------------------------------------------- colours

  datatype StatusKind = UserStatus | ProgramStatus | ApplicationStatus | RegistrationStatus

  const DefaultColor := "bg-gray-100 text-gray-800"
  const Green := "bg-green-100 text-green-800"
  const Red := "bg-red-100 text-red-800"
  const Yellow := "bg-yellow-100 text-yellow-800"
  const Blue := "bg-blue-100 text-blue-800"

  function ColorTable(kind: StatusKind): map<string, string> {
    match kind
    case UserStatus => map["active" := Green, "inactive" := DefaultColor, "suspended" := Red]
    case ProgramStatus => map["draft" := Yellow, "active" := Green, "completed" := Blue, "cancelled" := Red]
    case ApplicationStatus => map["draft" := DefaultColor, "submitted" := Yellow, "under_review" := Blue,
                                  "approved" := Green, "rejected" := Red]
    case RegistrationStatus => map["pending" := DefaultColor, "under_review" := Blue, "approved" := Green,
                                   "rejected" := Red, "requires_documents" := Yellow]
  }

  /** `colorMaps[type][status] || 'bg-gray-100 text-gray-800'`. */
  function GetStatusColor(status: string, kind: StatusKind): (r: string)
    ensures status !in ColorTable(kind) ==> r == DefaultColor
    ensures status in ColorTable(kind) ==> r == ColorTable(kind)[status]
    ensures status == "approved" && (kind.ApplicationStatus? || kind.RegistrationStatus?) ==> r == Green
    ensures status == "rejected" && (kind.ApplicationStatus? || kind.RegistrationStatus?) ==> r == Red
    ensures status == "active" && (kind.UserStatus? || kind.ProgramStatus?) ==> r == Green
    ensures r in {DefaultColor, Green, Red, Yellow, Blue}
  {
    var table := ColorTable(kind);
    if status in table && table[status] != [] then table[status] else DefaultColor
  }

  /** The whole colour table, entry by entry: users and programs here,
      applications and registrations below. */
  lemma StatusColors()
    ensures GetStatusColor("active", UserStatus) == Green
    ensures GetStatusColor("inactive", UserStatus) == DefaultColor
    ensures GetStatusColor("suspended", UserStatus) == Red
    ensures GetStatusColor("draft", ProgramStatus) == Yellow
    ensures GetStatusColor("active", ProgramStatus) == Green
    ensures GetStatusColor("completed", ProgramStatus) == Blue
    ensures GetStatusColor("cancelled", ProgramStatus) == Red
  {
  }

  lemma ReviewStatusColors()
    ensures GetStatusColor("draft", ApplicationStatus) == DefaultColor
    ensures GetStatusColor("submitted", ApplicationStatus) == Yellow
    ensures GetStatusColor("under_review", ApplicationStatus) == Blue
    ensures GetStatusColor("approved", ApplicationStatus) == Green
    ensures GetStatusColor("rejected", ApplicationStatus) == Red
    ensures GetStatusColor("pending", RegistrationStatus) == DefaultColor
    ensures GetStatusColor("under_review", RegistrationStatus) == Blue
    ensures GetStatusColor("approved", RegistrationStatus) == Green
    ensures GetStatusColor("rejected", RegistrationStatus) == Red
    ensures GetStatusColor("requires_documents", RegistrationStatus) == Yellow
  {
  }

  // ---------------------------------------------------------------- growth

  /** `Math.round(x)`: the nearest integer, halves rounded up. */
  function Round(x: real): int {
    (x + 0.5).Floor
  }

  /** `calculateGrowthRate`: the percentage change rounded to one decimal, and
      100 or 0 when there was nothing before. Computed on exact reals. */
  function CalculateGrowthRate(current: int, previous: int): (r: real)
    ensures previous == 0 ==> r == (if current > 0 then 100.0 else 0.0)
    ensures previous != 0 && current == previous ==> r == 0.0
    ensures previous > 0 && current >= 0 ==> r >= -100.0
  {
    if previous == 0 then (if current > 0 then 100.0 else 0.0)
    else
      var x := (current - previous) as real / previous as real * 100.0;
      assert previous > 0 && current >= 0 ==> x >= -100.0 by {
        if previous > 0 && current >= 0 {
          assert (current - previous) as real >= -(previous as real);
          assert (current - previous) as real / previous as real >= -1.0;
        }
      }
      Round(x * 10.0) as real / 10.0
  }

  // ---------------------------------------------------------------- validators

  /** `[^\s@]`. */
  predicate EmailChar(c: char) {
    !IsWhitespace(c) && c != '@'
  }

  /** One of the three parts of `/^[^\s@]+@[^\s@]+\.[^\s@]+$/`. */
  predicate EmailPart(t: string) {
    t != [] && forall k :: 0 <= k < |t| ==> EmailChar(t[k])
  }

  /** The strings of the form part `@` part `.` part. */
  predicate EmailShape(s: string) {
    exists i, j | 0 <= i < j < |s| :: ShapeAt(s, i, j)
  }

  /** After the `@`: no second `@`, and a `.` with text on both sides. */
  predicate EmailDomain(d: string) {
    '@' !in d && |d| >= 3 && '.' in d[1..|d| - 1]
  }

  /** `validateEmail`, decided left to right: no white space, an `@` with text
      before it, and a valid domain after the first `@`. */
  predicate ValidateEmail(s: string) {
    NoWhitespace(s) && 0 < IndexOf(s, '@') < |s| && EmailDomain(s[IndexOf(s, '@') + 1..])
  }

  lemma EmailPartOfSlice(s: string, lo: int, hi: int)
    requires 0 <= lo < hi <= |s|
    requires forall k :: lo <= k < hi ==> EmailChar(s[k])
    ensures EmailPart(s[lo..hi])
  {
    forall k | 0 <= k < hi - lo ensures EmailChar(s[lo..hi][k]) {
      assert s[lo..hi][k] == s[lo + k];
    }
  }

  lemma SliceOfEmailPart(s: string, lo: int, hi: int)
    requires 0 <= lo <= hi <= |s| && EmailPart(s[lo..hi])
    ensures forall k :: lo <= k < hi ==> EmailChar(s[k])
  {
    forall k | lo <= k < hi ensures EmailChar(s[k]) {
      assert s[k] == s[lo..hi][k - lo];
    }
  }

  lemma ValidateEmailIsShape(s: string)
    requires ValidateEmail(s)
    ensures EmailShape(s)
  {
    var i := IndexOf(s, '@');
    var d := s[i + 1..];
    var m := d[1..|d| - 1];
    var k := IndexOf(m, '.');
    var j := i + 2 + k;
    assert s[j] == d[k + 1] == m[k] == '.';
    forall t | 0 <= t < i ensures EmailChar(s[t]) {
      assert !IsWhitespace(s[t]);
    }
    forall t | i + 1 <= t < |s| ensures EmailChar(s[t]) {
      assert s[t] == d[t - i - 1];
    }
    EmailPartOfSlice(s, 0, i);
    EmailPartOfSlice(s, i + 1, j);
    EmailPartOfSlice(s, j + 1, |s|);
    assert s[..i] == s[0..i];
    assert s[j + 1..] == s[j + 1..|s|];
    assert ShapeAt(s, i, j);
  }

  lemma IndexOfFirst(s: string, c: char, i: nat)
    requires i < |s| && s[i] == c
    requires forall k :: 0 <= k < i ==> s[k] != c
    ensures IndexOf(s, c) == i
  {
  }

  predicate ShapeAt(s: string, i: int, j: int) {
    0 <= i < j < |s| && s[i] == '@' && s[j] == '.'
    && EmailPart(s[..i]) && EmailPart(s[i + 1..j]) && EmailPart(s[j + 1..])
  }

  lemma ShapeAtChars(s: string, i: int, j: int)
    requires ShapeAt(s, i, j)
    ensures forall t :: 0 <= t < |s| && t != i && t != j ==> EmailChar(s[t])
  {
    assert s[..i] == s[0..i];
    assert s[j + 1..] == s[j + 1..|s|];
    SliceOfEmailPart(s, 0, i);
    SliceOfEmailPart(s, i + 1, j);
    SliceOfEmailPart(s, j + 1, |s|);
  }

  lemma ShapeAtNoWhitespace(s: string, i: int, j: int)
    requires ShapeAt(s, i, j)
    ensures NoWhitespace(s)
  {
    ShapeAtChars(s, i, j);
    forall t | 0 <= t < |s| ensures !IsWhitespace(s[t]) {
      if t != i && t != j {
        assert EmailChar(s[t]);
      }
    }
  }

  lemma ShapeAtDomain(s: string, i: int, j: int)
    requires ShapeAt(s, i, j)
    ensures EmailDomain(s[i + 1..])
  {
    ShapeAtChars(s, i, j);
    var d := s[i + 1..];
    forall t | 0 <= t < |d| ensures d[t] != '@' {
      assert d[t] == s[t + i + 1];
    }
    assert d[j - i - 1] == '.';
    assert d[1..|d| - 1][j - i - 2] == '.';
  }

  lemma ShapeIsValidateEmail(s: string)
    requires EmailShape(s)
    ensures ValidateEmail(s)
  {
    var i, j :| ShapeAt(s, i, j);
    ShapeAtChars(s, i, j);
    ShapeAtNoWhitespace(s, i, j);
    ShapeAtDomain(s, i, j);
    IndexOfFirst(s, '@', i);
  }

  /** The decision procedure accepts exactly the strings the regular expression
      describes. */
  lemma ValidateEmailShape(s: string)
    ensures ValidateEmail(s) <==> EmailShape(s)
  {
    if ValidateEmail(s) {
      ValidateEmailIsShape(s);
    }
    if EmailShape(s) {
      ShapeIsValidateEmail(s);
    }
  }

  predicate Digits9(t: string) {
    |t| == 9 && AllDigits(t)
  }

  /** `validatePhoneNumber`: after deleting white space, `+27` or `0` followed by
      exactly nine digits (`/^(\+27|0)[0-9]{9}$/`). */
  function ValidatePhoneNumber(phone: string): (ok: bool)
    ensures ok ==> |RemoveWhitespace(phone)| in {10, 12}
    ensures ok <==> var p := RemoveWhitespace(phone);
              || (|p| == 12 && p[..3] == "+27" && AllDigits(p[3..]))
              || (|p| == 10 && p[0] == '0' && AllDigits(p[1..]))
  {
    var p := RemoveWhitespace(phone);
    (StartsWith(p, "+27") && Digits9(p[3..])) || (StartsWith(p, "0") && Digits9(p[1..]))
  }

  lemma {:induction false} RemoveWhitespaceConcat(a: string, b: string)
    ensures RemoveWhitespace(a + b) == RemoveWhitespace(a) + RemoveWhitespace(b)
  {
    if a != [] {
      assert (a + b)[1..] == a[1..] + b;
      assert (a + b)[0] == a[0];
      RemoveWhitespaceConcat(a[1..], b);
      var head: string := if IsWhitespace(a[0]) then [] else [a[0]];
      assert RemoveWhitespace(a + b) == head + RemoveWhitespace(a[1..] + b);
      assert RemoveWhitespace(a) == head + RemoveWhitespace(a[1..]);
    } else {
      assert a + b == b;
    }
  }

  /** White space anywhere in a phone number does not change the verdict. */
  lemma PhoneIgnoresWhitespace(a: string, w: string, b: string)
    requires forall k :: 0 <= k < |w| ==> IsWhitespace(w[k])
    ensures ValidatePhoneNumber(a + w + b) == ValidatePhoneNumber(a + b)
  {
    RemoveWhitespaceConcat(a + w, b);
    RemoveWhitespaceConcat(a, w);
    RemoveWhitespaceConcat(a, b);
    OnlyWhitespaceRemoved(w);
    assert RemoveWhitespace(a + w) == RemoveWhitespace(a);
    PhoneSameStripped(a + w + b, a + b);
  }

  /** Nine digits behind `+27` or `0`, with white space anywhere, are
      accepted; one digit more or less is not. */
  lemma PhoneForms(d: string, w: string)
    requires |d| == 9 && AllDigits(d)
    requires forall k :: 0 <= k < |w| ==> IsWhitespace(w[k])
    ensures ValidatePhoneNumber("+27" + w + d) && ValidatePhoneNumber("0" + w + d)
    ensures !ValidatePhoneNumber("0" + d[..8]) && !ValidatePhoneNumber("0" + d + "1")
  {
    PhoneIgnoresWhitespace("+27", w, d);
    PhoneIgnoresWhitespace("0", w, d);
    assert NoWhitespace("+27" + d) by {
      forall k | 0 <= k < |"+27" + d| ensures !IsWhitespace(("+27" + d)[k]) {
        if k >= 3 { assert ("+27" + d)[k] == d[k - 3]; }
      }
    }
    assert NoWhitespace("0" + d) by {
      forall k | 0 <= k < |"0" + d| ensures !IsWhitespace(("0" + d)[k]) {
        if k >= 1 { assert ("0" + d)[k] == d[k - 1]; }
      }
    }
    RemoveWhitespaceKeeps("+27" + d);
    RemoveWhitespaceKeeps("0" + d);
    assert ("+27" + d)[3..] == d;
    assert ("0" + d)[1..] == d;
    var short, long := "0" + d[..8], "0" + d + "1";
    assert NoWhitespace(short) by {
      forall k | 0 <= k < |short| ensures !IsWhitespace(short[k]) {
        if k >= 1 { assert short[k] == d[k - 1]; }
      }
    }
    assert NoWhitespace(long) by {
      forall k | 0 <= k < |long| ensures !IsWhitespace(long[k]) {
        if 1 <= k < 10 { assert long[k] == d[k - 1]; }
      }
    }
    RemoveWhitespaceKeeps(short);
    RemoveWhitespaceKeeps(long);
  }

  lemma PhoneSameStripped(x: string, y: string)
    requires RemoveWhitespace(x) == RemoveWhitespace(y)
    ensures ValidatePhoneNumber(x) == ValidatePhoneNumber(y)
  {
  }

  lemma {:induction false} OnlyWhitespaceRemoved(w: string)
    requires forall k :: 0 <= k < |w| ==> IsWhitespace(w[k])
    ensures RemoveWhitespace(w) == []
  {
    if w != [] {
      assert forall k :: 0 <= k < |w[1..]| ==> IsWhitespace(w[1..][k]) by {
        forall k | 0 <= k < |w[1..]| ensures IsWhitespace(w[1..][k]) {
          assert w[1..][k] == w[k + 1];
        }
      }
      OnlyWhitespaceRemoved(w[1..]);
    }
  }

  // ---------------------------------------------------------------- sanitize

  /** `sanitizeInput`: trim, then delete every `<` and `>`. */
  function SanitizeInput(input: string): (r: string)
    ensures '<' !in r && '>' !in r
    ensures ('<' !in Trim(input) && '>' !in Trim(input)) ==> r == Trim(input)
    ensures Lists.IsSubsequence(r, Trim(input))
    ensures forall c | c != '<' && c != '>' :: multiset(r)[c] == multiset(Trim(input))[c]
  {
    RemoveCharsSubsequence(Trim(input), {'<', '>'});
    RemoveCharsCounts(Trim(input), {'<', '>'});
    RemoveChars(Trim(input), {'<', '>'})
  }

  /** Deleting characters keeps the others in their order. */
  lemma {:induction false} RemoveCharsSubsequence(s: string, bad: set<char>)
    ensures Lists.IsSubsequence(RemoveChars(s, bad), s)
  {
    if s != [] {
      RemoveCharsSubsequence(s[1..], bad);
      var r := RemoveChars(s, bad);
      if s[0] in bad {
        assert r == RemoveChars(s[1..], bad);
        Lists.SubsequenceSkip(r, s[1..], s[0]);
        assert [s[0]] + s[1..] == s;
      } else {
        assert r == [s[0]] + RemoveChars(s[1..], bad);
        assert r[0] == s[0] && r[1..] == RemoveChars(s[1..], bad);
      }
    }
  }

  /** Deleting characters keeps every other character as often as it occurs. */
  lemma {:induction false} RemoveCharsCounts(s: string, bad: set<char>)
    ensures forall c | c !in bad :: multiset(RemoveChars(s, bad))[c] == multiset(s)[c]
  {
    if s != [] {
      RemoveCharsCounts(s[1..], bad);
      var head: string := if s[0] in bad then [] else [s[0]];
      assert RemoveChars(s, bad) == head + RemoveChars(s[1..], bad);
      assert s == [s[0]] + s[1..];
      assert multiset(s) == multiset([s[0]]) + multiset(s[1..]);
      assert multiset(RemoveChars(s, bad)) == multiset(head) + multiset(RemoveChars(s[1..], bad));
    }
  }

  /** Sanitising twice can differ from sanitising once: deleting a leading `<`
      exposes the white space behind it, which the second pass trims. */
  lemma SanitizeNotIdempotent()
    ensures SanitizeInput("< a") == " a"
    ensures SanitizeInput(SanitizeInput("< a")) == "a"
  {
    assert TrimStart("< a") == "< a";
    assert TrimEnd("< a") == "< a";
    assert RemoveChars("a", {'<', '>'}) == "a";
    assert RemoveChars(" a", {'<', '>'}) == " a" by {
      assert " a"[1..] == "a";
    }
    assert RemoveChars("< a", {'<', '>'}) == " a" by {
      assert "< a"[1..] == " a";
    }
    assert TrimStart(" a") == "a" by {
      assert " a"[1..] == "a";
    }
    assert TrimEnd("a") == "a";
  }

  // ---------------------------------------------------------------- time ago

  /** `formatTimeAgo` with the clock and the locale rendering as parameters;
      times are in milliseconds. */
  function FormatTimeAgo(nowMs: int, pastMs: int, localeDate: int -> string): (r: string)
    ensures (nowMs - pastMs) / 1000 < 60 ==> r == "Just now"
    ensures var d := (nowMs - pastMs) / 1000; 60 <= d < 3600 ==>
      exists n: nat | 1 <= n < 60 && n * 60 <= d < n * 60 + 60 :: r == NatToString(n) + " minutes ago"
    ensures var d := (nowMs - pastMs) / 1000; 3600 <= d < 86400 ==>
      exists n: nat | 1 <= n < 24 && n * 3600 <= d < n * 3600 + 3600 :: r == NatToString(n) + " hours ago"
    ensures var d := (nowMs - pastMs) / 1000; 86400 <= d < 2592000 ==>
      exists n: nat | 1 <= n < 30 && n * 86400 <= d < n * 86400 + 86400 :: r == NatToString(n) + " days ago"
    ensures 2592000 <= (nowMs - pastMs) / 1000 ==> r == localeDate(pastMs)
  {
    var d := (nowMs - pastMs) / 1000;
    if d < 60 then "Just now"
    else if d < 3600 then IntToString(d / 60) + " minutes ago"
    else if d < 86400 then IntToString(d / 3600) + " hours ago"
    else if d < 2592000 then IntToString(d / 86400) + " days ago"
    else localeDate(pastMs)
  }

  // ---------------------------------------------------------------- groupBy

  /** The items whose key is `g`, in their original order. */
  function Members<T(==)>(items: seq<T>, key: T -> string, g: string): (r: seq<T>)
    ensures forall k :: 0 <= k < |r| ==> r[k] in items && key(r[k]) == g
    ensures forall k :: 0 <= k < |items| && key(items[k]) == g ==> items[k] in r
    ensures |r| <= |items|
  {
    if items == [] then []
    else
      var last := items[|items| - 1];
      assert items == items[..|items| - 1] + [last];
      Members(items[..|items| - 1], key, g) + (if key(last) == g then [last] else [])
  }

  lemma MembersStep<T>(items: seq<T>, key: T -> string, g: string, i: nat)
    requires i < |items|
    ensures Members(items[..i + 1], key, g)
      == Members(items[..i], key, g) + (if key(items[i]) == g then [items[i]] else [])
  {
    assert items[..i + 1][..i] == items[..i];
  }

  /** The groups of `items` as `groupBy` leaves them: each key with its members. */
  ghost predicate GroupsOf<T>(groups: Dict<seq<T>>, items: seq<T>, key: T -> string) {
    && UniqueKeys(groups)
    && forall g :: Lookup(groups, g) == GroupValue(items, key, g)
  }

  /** The group value a key should have for the items seen so far. */
  function GroupValue<T(==)>(items: seq<T>, key: T -> string, g: string): Option<seq<T>> {
    var m := Members(items, key, g);
    if m == [] then None else Some(m)
  }

  lemma GroupStepAt<T>(groups: Dict<seq<T>>, items: seq<T>, key: T -> string, i: nat, h: string)
    requires i < |items|
    requires Lookup(groups, key(items[i])) == GroupValue(items[..i], key, key(items[i]))
    requires Lookup(groups, h) == GroupValue(items[..i], key, h)
    ensures Lookup(Put(groups, key(items[i]), Lookup(groups, key(items[i])).GetOr([]) + [items[i]]), h)
         == GroupValue(items[..i + 1], key, h)
  {
    var g := key(items[i]);
    var v := Lookup(groups, g).GetOr([]) + [items[i]];
    MembersStep(items, key, h, i);
    if h == g {
      PutLookupSame(groups, g, v);
    } else {
      assert Members(items[..i], key, h) + [] == Members(items[..i], key, h);
      assert Members(items[..i + 1], key, h) == Members(items[..i], key, h);
      PutLookupOther(groups, g, v, h);
    }
  }

  /** One step of the `reduce`: the item joins the end of its group. */
  lemma GroupStep<T>(groups: Dict<seq<T>>, items: seq<T>, key: T -> string, i: nat)
    requires i < |items| && GroupsOf(groups, items[..i], key)
    ensures GroupsOf(Put(groups, key(items[i]), Lookup(groups, key(items[i])).GetOr([]) + [items[i]]), items[..i + 1], key)
  {
    var g := key(items[i]);
    var v := Lookup(groups, g).GetOr([]) + [items[i]];
    PutUnique(groups, g, v);
    forall h ensures Lookup(Put(groups, g, v), h) == GroupValue(items[..i + 1], key, h) {
      GroupStepAt(groups, items, key, i, h);
    }
  }

  /** `groupBy(array, key)`: one group per key value (the key already
      stringified by `key`), holding exactly the items with that key in their
      original order; keys that no item has are absent. */
  method GroupBy<T(==)>(items: seq<T>, key: T -> string) returns (groups: Dict<seq<T>>)
    ensures UniqueKeys(groups)
    ensures forall g :: Lookup(groups, g) == if Members(items, key, g) == [] then None else Some(Members(items, key, g))
  {
    groups := [];
    var i := 0;
    while i < |items|
      invariant 0 <= i <= |items|
      invariant GroupsOf(groups, items[..i], key)
    {
      var x := items[i];
      var g := key(x);
      var prev := Lookup(groups, g).GetOr([]);
      GroupStep(groups, items, key, i);
      groups := Put(groups, g, prev + [x]);
      i := i + 1;
    }
    assert items[..i] == items;
  }

  // ---------------------------------------------------------------- chunk

  function Concat<T>(parts: seq<seq<T>>): seq<T> {
    if parts == [] then [] else Concat(parts[..|parts| - 1]) + parts[|parts| - 1]
  }

  function Min(a: int, b: int): int {
    if a <= b then a else b
  }

  /** `chunk(array, size)`: consecutive slices of `size` items, the last one
      possibly shorter. The source loops forever for `size` 0 on a non-empty
      array, so that case is excluded. */
  method Chunk<T>(a: seq<T>, size: nat) returns (chunks: seq<seq<T>>)
    requires size > 0 || a == []
    ensures Concat(chunks) == a
    ensures forall k :: 0 <= k < |chunks| - 1 ==> |chunks[k]| == size
    ensures chunks != [] ==> 0 < |chunks[|chunks| - 1]| <= size
    ensures chunks == [] <==> a == []
  {
    chunks := [];
    var i := 0;
    while i < |a|
      invariant 0 <= i
      invariant Concat(chunks) == a[..Min(i, |a|)]
      invariant forall k :: 0 <= k < |chunks| ==> 0 < |chunks[k]| <= size
      invariant i < |a| ==> forall k :: 0 <= k < |chunks| ==> |chunks[k]| == size
      invariant forall k :: 0 <= k < |chunks| - 1 ==> |chunks[k]| == size
      invariant chunks == [] <==> i == 0
      decreases |a| - i
    {
      var piece := a[i..Min(i + size, |a|)];
      assert a[..Min(i + size, |a|)] == a[..i] + piece;
      ConcatSnoc(chunks, piece);
      chunks := chunks + [piece];
      i := i + size;
    }
    assert a[..Min(i, |a|)] == a;
  }

  lemma ConcatSnoc<T>(parts: seq<seq<T>>, piece: seq<T>)
    ensures Concat(parts + [piece]) == Concat(parts) + piece
  {
    assert (parts + [piece])[..|parts|] == parts;
  }

  // ---------------------------------------------------------------- permissions

  /** `requiredRoles.some(role => userRoles.includes(role))`. */
  function HasAdminPermission<T(==)>(userRoles: seq<T>, requiredRoles: seq<T>): (r: bool)
    ensures r <==> exists k | 0 <= k < |requiredRoles| :: requiredRoles[k] in userRoles
  {
    if requiredRoles == [] then false
    else requiredRoles[0] in userRoles || HasAdminPermission(userRoles, requiredRoles[1..])
  }

  lemma PermissionOfTwo(userRoles: seq<string>, a: string, b: string)
    ensures HasAdminPermission(userRoles, [a, b]) <==> a in userRoles || b in userRoles
  {
    assert [a, b][0] == a && [a, b][1] == b;
  }

  lemma PermissionOfThree(userRoles: seq<string>, a: string, b: string, c: string)
    ensures HasAdminPermission(userRoles, [a, b, c]) <==> a in userRoles || b in userRoles || c in userRoles
  {
    assert [a, b, c][0] == a && [a, b, c][1] == b && [a, b, c][2] == c;
  }

  function CanManageUsers(roles: seq<string>): (r: bool)
    ensures r <==> "admin" in roles || "super_admin" in roles
  {
    PermissionOfTwo(roles, "admin", "super_admin");
    HasAdminPermission(roles, ["admin", "super_admin"])
  }

  function CanManagePrograms(roles: seq<string>): (r: bool)
    ensures r <==> "admin" in roles || "super_admin" in roles || "program_manager" in roles
  {
    PermissionOfThree(roles, "admin", "super_admin", "program_manager");
    HasAdminPermission(roles, ["admin", "super_admin", "program_manager"])
  }

  function CanReviewRegistrations(roles: seq<string>): (r: bool)
    ensures r <==> "admin" in roles || "super_admin" in roles || "client_admin" in roles
  {
    PermissionOfThree(roles, "admin", "super_admin", "client_admin");
    HasAdminPermission(roles, ["admin", "super_admin", "client_admin"])
  }

  /** The source lists the program managers' roles again. */
  function CanAccessAnalytics(roles: seq<string>): (r: bool)
    ensures r <==> "admin" in roles || "super_admin" in roles || "program_manager" in roles
  {
    CanManagePrograms(roles)
  }

  /** The source lists the user managers' roles again. */
  function CanModifySettings(roles: seq<string>): (r: bool)
    ensures r <==> "admin" in roles || "super_admin" in roles
  {
    CanManageUsers(roles)
  }

  /** Whoever may manage users may do everything the other predicates guard. */
  lemma ManageUsersImpliesOthers(roles: seq<string>)
    requires CanManageUsers(roles)
    ensures CanManagePrograms(roles) && CanReviewRegistrations(roles)
    ensures CanAccessAnalytics(roles) && CanModifySettings(roles)
  {
  }

  /** An empty requirement grants nothing, and no role grants anything to an
      empty role list. */
  lemma NoPermissionFromNothing(userRoles: seq<string>, requiredRoles: seq<string>)
    ensures !HasAdminPermission(userRoles, [])
    ensures !HasAdminPermission([], requiredRoles)
  {
  }
}
