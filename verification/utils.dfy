/** The string helpers of the utility library: e-mail validation, avatar
    initials and job-type labels. */
module Utils {
  import opened Outcomes
  import opened Text
  import opened Js
  import opened Types

  // ---------------------------------------------------------------------
  // validateEmail: the anchored pattern ^[^\s@]+@[^\s@]+\.[^\s@]+$
  // ---------------------------------------------------------------------

  /** A character of the class `[^\s@]`. */
  predicate IsEmailAtom(c: char) {
    !IsWhitespace(c) && c != '@'
  }

  /** A match of `[^\s@]+`. */
  ghost predicate IsAtomRun(t: string) {
    |t| > 0 && forall k :: 0 <= k < |t| ==> IsEmailAtom(t[k])
  }

  /** What the regular expression accepts: three runs of `[^\s@]+` separated
      by an `@` at `i` and a `.` at `j`, covering the whole string. */
  ghost predicate MatchesEmailPattern(s: string) {
    exists i, j :: 0 <= i < j < |s| && s[i] == '@' && s[j] == '.'
      && IsAtomRun(s[..i]) && IsAtomRun(s[i + 1..j]) && IsAtomRun(s[j + 1..])
  }

  /** The position of the first `c` in `s`. */
  function IndexOf(s: string, c: char): (r: Option<nat>)
    ensures r.None? <==> c !in s
    ensures r.Some? ==> r.value < |s| && s[r.value] == c
    ensures r.Some? ==> forall k :: 0 <= k < r.value ==> s[k] != c
  {
    if |s| == 0 then None
    else if s[0] == c then Some(0)
    else
      match IndexOf(s[1..], c)
      case None => None
      case Some(k) => Some(k + 1)
  }

  /** `validateEmail`, decided by a scan: no whitespace anywhere, a single
      `@` that is not first, and a `.` strictly inside the domain part. */
  function ValidateEmail(email: string): (ok: bool)
    ensures ok ==> |email| >= 5 && '@' in email[1..]
  {
    match IndexOf(email, '@')
    case None => false
    case Some(at) =>
      var domain := email[at + 1..];
      && at > 0
      && (forall k | 0 <= k < |email| :: !IsWhitespace(email[k]))
      && '@' !in domain
      && |domain| >= 3
      && '.' in domain[1..|domain| - 1]
  }

  lemma AtomRunOf(s: string, a: nat, b: nat)
    requires a < b <= |s|
    requires forall k :: a <= k < b ==> IsEmailAtom(s[k])
    ensures IsAtomRun(s[a..b])
  {
    assert forall k :: 0 <= k < b - a ==> s[a..b][k] == s[a + k];
  }

  lemma AcceptedMatchesPattern(s: string)
    requires ValidateEmail(s)
    ensures MatchesEmailPattern(s)
  {
    var i := IndexOf(s, '@').value;
    var d := s[i + 1..];
    var inner := d[1..|d| - 1];
    var m :| 0 <= m < |inner| && inner[m] == '.';
    var j := i + 2 + m;
    assert s[j] == inner[m];
    assert forall k :: 0 <= k < i ==> s[..i][k] == s[k];
    assert forall k :: i < k < |s| ==> s[k] == d[k - i - 1];
    AtomRunOf(s, 0, i);
    assert s[0..i] == s[..i];
    AtomRunOf(s, i + 1, j);
    AtomRunOf(s, j + 1, |s|);
    assert s[j + 1..|s|] == s[j + 1..];
  }

  lemma AtomRunChars(s: string, a: nat, b: nat)
    requires a <= b <= |s| && IsAtomRun(s[a..b])
    ensures forall k :: a <= k < b ==> IsEmailAtom(s[k])
  {
    assert forall k :: a <= k < b ==> s[k] == s[a..b][k - a];
  }

  lemma SplitAtIsAccepted(s: string, i: nat, j: nat)
    requires 0 < i && i + 1 < j && j + 1 < |s| && s[i] == '@' && s[j] == '.'
    requires forall k :: 0 <= k < |s| && k != i ==> IsEmailAtom(s[k])
    ensures ValidateEmail(s)
  {
    assert '@' !in s[..i];
    assert IndexOf(s, '@') == Some(i);
    var d := s[i + 1..];
    assert forall k :: 0 <= k < |d| ==> d[k] == s[i + 1 + k];
    assert '@' !in d;
    assert d[1..|d| - 1][j - i - 2] == '.';
  }

  lemma PatternIsAccepted(s: string)
    requires MatchesEmailPattern(s)
    ensures ValidateEmail(s)
  {
    var i, j :| 0 <= i < j < |s| && s[i] == '@' && s[j] == '.'
      && IsAtomRun(s[..i]) && IsAtomRun(s[i + 1..j]) && IsAtomRun(s[j + 1..]);
    assert s[0..i] == s[..i];
    AtomRunChars(s, 0, i);
    AtomRunChars(s, i + 1, j);
    assert s[j + 1..|s|] == s[j + 1..];
    AtomRunChars(s, j + 1, |s|);
    SplitAtIsAccepted(s, i, j);
  }

  /** The scan accepts exactly the strings the anchored pattern matches. */
  lemma ValidateEmailMatchesPattern(s: string)
    ensures ValidateEmail(s) <==> MatchesEmailPattern(s)
  {
    if ValidateEmail(s) {
      AcceptedMatchesPattern(s);
    }
    if MatchesEmailPattern(s) {
      PatternIsAccepted(s);
    }
  }

  /** The properties the form pages rely on: the empty string and any
      string with whitespace are rejected, and an accepted address has a
      non-empty local part, one `@`, and a dot with text on both sides. */
  lemma ValidateEmailShape(s: string)
    ensures s == "" ==> !ValidateEmail(s)
    ensures (exists k :: 0 <= k < |s| && IsWhitespace(s[k])) ==> !ValidateEmail(s)
    ensures ValidateEmail(s) ==> |s| >= 5
    ensures ValidateEmail(s) ==> multiset(s)['@'] == 1
  {
    if ValidateEmail(s) {
      var i := IndexOf(s, '@').value;
      assert s == s[..i] + [s[i]] + s[i + 1..];
      assert multiset(s[..i])['@'] == 0;
      assert multiset(s[i + 1..])['@'] == 0;
    }
  }

  // ---------------------------------------------------------------------
  // generateInitials
  // ---------------------------------------------------------------------

  /** `words.map(w => w.charAt(0)).join('')`: the first character of every
      word, nothing for an empty word. */
  function FirstLetters(words: seq<string>): string
  {
    if |words| == 0 then ""
    else Take(words[0], 1) + FirstLetters(words[1..])
  }

  /** The characters that begin a word of `s`: those that are not a space
      and stand first or right after a space. `afterSpace` says whether the
      text before `s` ended a word. */
  function WordStarts(s: string, afterSpace: bool): string
  {
    if |s| == 0 then ""
    else
      var head := if afterSpace && s[0] != ' ' then [s[0]] else [];
      head + WordStarts(s[1..], s[0] == ' ')
  }

  /** `generateInitials(name)`. */
  function GenerateInitials(name: string): (r: string)
    ensures |r| <= 2
    ensures name == "" ==> r == "U"
  {
    if name == "" then "U"
    else Take(ToUpper(FirstLetters(Split(name, ' '))), 2)
  }

  lemma {:induction false} FirstLettersOfSplit(s: string)
    ensures FirstLetters(Split(s, ' ')) == WordStarts(s, true)
    decreases |s|, 1
  {
    if |s| > 0 {
      var rest := Split(s[1..], ' ');
      if s[0] == ' ' {
        FirstLettersOfSplit(s[1..]);
        assert ([""] + rest)[1..] == rest;
      } else {
        LaterFirstLettersOfSplit(s[1..]);
        var w := [s[0]] + rest[0];
        assert ([w] + rest[1..])[1..] == rest[1..];
        assert Take(w, 1) == [s[0]];
      }
    }
  }

  lemma {:induction false} LaterFirstLettersOfSplit(s: string)
    ensures FirstLetters(Split(s, ' ')[1..]) == WordStarts(s, false)
    decreases |s|, 0
  {
    if |s| > 0 {
      var rest := Split(s[1..], ' ');
      if s[0] == ' ' {
        FirstLettersOfSplit(s[1..]);
        assert ([""] + rest)[1..] == rest;
      } else {
        LaterFirstLettersOfSplit(s[1..]);
        assert ([[s[0]] + rest[0]] + rest[1..])[1..] == rest[1..];
      }
    }
  }

  /** For a non-empty name the initials are the upper-cased word-starting
      characters, at most two of them: runs of spaces contribute nothing. */
  lemma InitialsAreWordStarts(name: string)
    requires name != ""
    ensures GenerateInitials(name) == Take(ToUpper(WordStarts(name, true)), 2)
  {
    FirstLettersOfSplit(name);
  }

  lemma {:induction false} WordStartsOfSpaces(s: string, afterSpace: bool)
    requires forall k :: 0 <= k < |s| ==> s[k] == ' '
    ensures WordStarts(s, afterSpace) == ""
    decreases |s|
  {
    if |s| > 0 {
      WordStartsOfSpaces(s[1..], true);
    }
  }

  /** A name made of spaces only is not empty, so it does not get the `U`
      fallback: its initials are the empty string. */
  lemma InitialsOfBlankName(name: string)
    requires name != "" && forall k :: 0 <= k < |name| ==> name[k] == ' '
    ensures GenerateInitials(name) == ""
  {
    InitialsAreWordStarts(name);
    WordStartsOfSpaces(name, true);
  }

  // ---------------------------------------------------------------------
  // getJobTypeLabel: labels[type] || type
  // ---------------------------------------------------------------------

  /** The display label of each job type, as the label table spells it
      (the internship label is stored mis-encoded, `Ã¡` for `á`). */
  function Label(t: JobType): string {
    match t
    case FullTime => "Tiempo completo"
    case PartTime => "Tiempo parcial"
    case Contract => "Contrato"
    case Internship => "Pr\U{00C3}\U{00A1}cticas"
    case Remote => "Remoto"
  }

  /** The job type whose code is `code`, if any. */
  function JobTypeOfCode(code: string): (r: Option<JobType>)
    ensures r.Some? ==> r.value.Code() == code
    ensures forall t: JobType :: t.Code() == code ==> r == Some(t)
  {
    if code == "full-time" then Some(FullTime)
    else if code == "part-time" then Some(PartTime)
    else if code == "contract" then Some(Contract)
    else if code == "internship" then Some(Internship)
    else if code == "remote" then Some(Remote)
    else None
  }

  /** `getJobTypeLabel(type)` with the table's own keys only. */
  function GetJobTypeLabel(code: string): (r: string)
    ensures forall t: JobType :: t.Code() == code ==> r == Label(t)
    ensures (forall t: JobType :: t.Code() != code) ==> r == code
  {
    match JobTypeOfCode(code)
    case Some(t) => Label(t)
    case None => code
  }

  /** The keys an object literal inherits from `Object.prototype`. */
  const InheritedKeys: set<string> := {
    "constructor", "hasOwnProperty", "isPrototypeOf", "propertyIsEnumerable",
    "toLocaleString", "toString", "valueOf", "__proto__",
    "__defineGetter__", "__defineSetter__", "__lookupGetter__", "__lookupSetter__"
  }

  /** `labels[key]` on the label object literal as JavaScript evaluates it:
      own keys first, then the prototype chain (whose members are functions,
      and an object for `__proto__`). */
  function LabelLookup(key: string): JsValue {
    match JobTypeOfCode(key)
    case Some(t) => Str(Label(t))
    case None =>
      if key == "__proto__" then Object
      else if key in InheritedKeys then Function(key)
      else Undefined
  }

  /** `getJobTypeLabel` as written: `labels[type] || type`. It yields a
      string exactly when the code is not an inherited key. */
  function GetJobTypeLabelAsWritten(code: string): (r: JsValue)
    ensures r.Str? <==> code !in InheritedKeys
    ensures code in InheritedKeys ==> Truthy(r)
  {
    Or(LabelLookup(code), Str(code))
  }

  /** The fallback is not taken for inherited keys: `getJobTypeLabel('toString')`
      returns `Object.prototype.toString`, a function, not its input. */
  lemma InheritedKeyEscapesFallback()
    ensures GetJobTypeLabelAsWritten("toString") == Function("toString")
    ensures GetJobTypeLabelAsWritten("toString") != Str("toString")
  {
    assert JobTypeOfCode("toString") == None;
  }

  /** Away from the inherited keys the code as written and the own-key
      lookup agree. */
  lemma LabelAsWrittenAgrees(code: string)
    requires code !in InheritedKeys
    ensures GetJobTypeLabelAsWritten(code) == Str(GetJobTypeLabel(code))
  {
  }
}
