/** The vault dashboard (app/dashboard/page.tsx): the security summary over
    the stored passwords, the avatar initials, the recent list, the length
    badge and the statistics refresh. */
module Dashboard {
  import opened Common
  import opened Http
  import opened Passwords

  /** The summary card: average score, grade, message, text colour, level. */
  datatype Security = Security(score: nat, grade: string, message: string, color: string, level: string)

  const NoPasswords: Security :=
    Security(100, "N/A", "No passwords stored yet", "text-muted-foreground", "neutral")

  /** The sum of the vault scores of a list. */
  function TotalScore(ps: seq<Stored>): (t: nat)
    ensures 10 * |ps| <= t <= 100 * |ps|
  {
    if ps == [] then 0 else TotalScore(ps[..|ps| - 1]) + Score(ps[|ps| - 1].password)
  }

  /** How many passwords score below 60. */
  function WeakCount(ps: seq<Stored>): (k: nat)
    ensures k <= |ps|
  {
    if ps == [] then 0 else WeakCount(ps[..|ps| - 1]) + Bit(Score(ps[|ps| - 1].password) < 60)
  }

  /** Grade, message, colour and level for an average, before the weak-password
      message applies (app/dashboard/page.tsx:93-123). */
  function Band(average: nat): Security {
    if average >= 90 then Security(average, "A+", "Excellent security", "text-green-500", "excellent")
    else if average >= 80 then Security(average, "A", "Strong security", "text-green-500", "strong")
    else if average >= 70 then Security(average, "B", "Good security", "text-yellow-500", "good")
    else if average >= 60 then Security(average, "C", "Fair security", "text-yellow-500", "fair")
    else if average >= 50 then Security(average, "D", "Weak security", "text-red-500", "weak")
    else Security(average, "F", "Critical security issues", "text-red-500", "critical")
  }

  /** The message the weak passwords override the band's with. */
  function WeakMessage(k: nat): string {
    NatToString(k) + " weak password" + (if k > 1 then "s" else "") + " detected"
  }

  /** What `calculateSecurityScore` returns. */
  function SecurityOf(ps: seq<Stored>): Security {
    if |ps| == 0 then NoPasswords
    else
      var s := Band(RoundDiv(TotalScore(ps), |ps|));
      if WeakCount(ps) > 0 then s.(message := WeakMessage(WeakCount(ps))) else s
  }

  /** `calculateSecurityScore`: one pass that scores each password as the
      vault page does, inline, summing the scores and counting the weak ones. */
  method CalculateSecurityScore(passwords: seq<Stored>) returns (r: Security)
    ensures r == SecurityOf(passwords)
  {
    if |passwords| == 0 {
      return NoPasswords;
    }
    var totalScore := 0;
    var weakPasswords := 0;
    var i := 0;
    while i < |passwords|
      invariant 0 <= i <= |passwords|
      invariant totalScore == TotalScore(passwords[..i])
      invariant weakPasswords == WeakCount(passwords[..i])
    {
      var password := passwords[i].password;
      var passwordScore := 0;
      if |password| >= 12 {
        passwordScore := passwordScore + 40;
      } else if |password| >= 8 {
        passwordScore := passwordScore + 25;
      } else {
        passwordScore := passwordScore + 10;
      }
      assert passwordScore == LengthPoints(|password|);
      if HasLower(password) { passwordScore := passwordScore + 15; }
      assert passwordScore == LengthPoints(|password|) + 15 * Bit(HasLower(password));
      if HasUpper(password) { passwordScore := passwordScore + 15; }
      assert passwordScore == LengthPoints(|password|) + 15 * (Bit(HasLower(password)) + Bit(HasUpper(password)));
      if HasDigit(password) { passwordScore := passwordScore + 15; }
      assert passwordScore == LengthPoints(|password|)
        + 15 * (Bit(HasLower(password)) + Bit(HasUpper(password)) + Bit(HasDigit(password)));
      if HasSpecial(password) { passwordScore := passwordScore + 15; }
      assert passwordScore == Score(password);
      assert passwords[..i + 1][..i] == passwords[..i];
      assert TotalScore(passwords[..i + 1]) == TotalScore(passwords[..i]) + passwordScore;
      assert WeakCount(passwords[..i + 1]) == WeakCount(passwords[..i]) + Bit(passwordScore < 60);
      totalScore := totalScore + passwordScore;
      if passwordScore < 60 {
        weakPasswords := weakPasswords + 1;
      }
      i := i + 1;
    }
    assert passwords[..i] == passwords;
    var averageScore := RoundDiv(totalScore, |passwords|);
    r := Band(averageScore);
    if weakPasswords > 0 {
      r := r.(message := WeakMessage(weakPasswords));
    }
  }

  // ---------------------------------------------------------------------------
  // Properties of the summary

  lemma EmptyListIsNeutral()
    ensures SecurityOf([]) == Security(100, "N/A", "No passwords stored yet", "text-muted-foreground", "neutral")
  {
  }

  /** The dashboard calls a password weak exactly when the vault page rates it
      'weak'. */
  lemma WeakMeansVaultWeak(p: string)
    ensures Score(p) < 60 <==> StrengthOf(p) == Weak
  {
  }

  /** `WeakCount` is the vault page's count of 'weak' ratings. */
  lemma WeakCountIsVaultWeak(ps: seq<Stored>)
    ensures WeakCount(ps) == |Filter(Enhance(ps), Rated(Weak))|
  {
    WeakCountOfRated(ps, Enhance(ps));
  }

  /** The same count for any entries rated, index by index, as the vault
      rates the stored passwords. */
  lemma {:induction false} WeakCountOfRated(ps: seq<Stored>, e: seq<Entry>)
    requires |e| == |ps|
    requires forall i :: 0 <= i < |ps| ==> e[i].strength == Some(StrengthOf(ps[i].password))
    ensures WeakCount(ps) == |Filter(e, Rated(Weak))|
  {
    if ps != [] {
      var n := |ps| - 1;
      var init, front := ps[..n], e[..n];
      assert forall i :: 0 <= i < n ==> front[i] == e[i] && init[i] == ps[i];
      WeakCountOfRated(init, front);
      WeakFilterStep(e, ps[n].password);
    }
  }

  /** One more entry, rated as its password, adds one to the weak filter
      exactly when that password scores below 60. */
  lemma WeakFilterStep(e: seq<Entry>, p: string)
    requires e != [] && e[|e| - 1].strength == Some(StrengthOf(p))
    ensures |Filter(e, Rated(Weak))| == |Filter(e[..|e| - 1], Rated(Weak))| + Bit(Score(p) < 60)
  {
    var n := |e| - 1;
    WeakMeansVaultWeak(p);
    FilterSnoc(e[..n], e[n], Rated(Weak));
    assert e[..n] + [e[n]] == e;
  }

  /** Filtering a sequence extended by one element. */
  lemma {:induction false} FilterSnoc<T>(s: seq<T>, x: T, p: T -> bool)
    ensures Filter(s + [x], p) == Filter(s, p) + (if p(x) then [x] else [])
  {
    if s == [] {
      assert [] + [x] == [x];
    } else {
      assert (s + [x])[1..] == s[1..] + [x];
      FilterSnoc(s[1..], x, p);
    }
  }

  /** A non-empty list averages to a score between 10 and 100. */
  lemma ScoreInRange(ps: seq<Stored>)
    requires |ps| > 0
    ensures 10 <= SecurityOf(ps).score <= 100
  {
    RoundDivAtMost(TotalScore(ps), |ps|, 100);
    RoundDivAtLeast(TotalScore(ps), |ps|, 10);
  }

  /** The grade order, best first. */
  function GradeRank(grade: string): nat {
    if grade == "A+" then 5 else if grade == "A" then 4 else if grade == "B" then 3
    else if grade == "C" then 2 else if grade == "D" then 1 else 0
  }

  /** A higher average never gets a lower grade; a grade's colour and level
      are fixed by it. */
  lemma GradeMonotone(a: nat, b: nat)
    requires a <= b
    ensures GradeRank(Band(a).grade) <= GradeRank(Band(b).grade)
    ensures Band(a).grade == Band(b).grade ==> Band(a).color == Band(b).color && Band(a).level == Band(b).level
  {
  }

  /** Weak passwords replace the message with their count, plural from two. */
  lemma WeakPasswordsMessage(ps: seq<Stored>)
    requires |ps| > 0
    ensures WeakCount(ps) > 0 ==> SecurityOf(ps).message == WeakMessage(WeakCount(ps))
    ensures WeakCount(ps) == 0 ==> SecurityOf(ps).message == Band(SecurityOf(ps).score).message
  {
    var avg := RoundDiv(TotalScore(ps), |ps|);
    BandKeepsScore(avg);
  }

  lemma BandKeepsScore(average: nat)
    ensures Band(average).score == average
  {
  }

  /** The plural "s" appears exactly when the count exceeds one. */
  lemma WeakMessagePlural(k: nat)
    ensures k > 1 <==> WeakMessage(k) == NatToString(k) + " weak passwords detected"
    ensures k <= 1 ==> WeakMessage(k) == NatToString(k) + " weak password detected"
  {
    WeakMessageText(k);
    if k <= 1 {
      assert |WeakMessage(k)| < |NatToString(k) + " weak passwords detected"|;
    }
  }

  /** The message with its two literal pieces joined. */
  lemma WeakMessageText(k: nat)
    ensures WeakMessage(k) == NatToString(k) + (if k > 1 then " weak passwords detected" else " weak password detected")
  {
    var n := NatToString(k);
    if k > 1 {
      assert WeakMessage(k) == n + (" weak password" + "s" + " detected");
    } else {
      assert WeakMessage(k) == n + (" weak password" + "" + " detected");
    }
  }

  // ---------------------------------------------------------------------------
  // Initials (app/dashboard/page.tsx:209-211)

  /** `s.split(' ')`: the pieces between spaces, empty ones included. */
  function Split(s: string): (r: seq<string>)
    ensures |r| >= 1
  {
    if s == [] then [[]]
    else
      var rest := Split(s[1..]);
      if s[0] == ' ' then [[]] + rest else [[s[0]] + rest[0]] + rest[1..]
  }

  /** `.map(n => n[0]).join('')`: `join` renders the `undefined` of an empty
      piece as nothing. */
  function Heads(words: seq<string>): string {
    if words == [] then []
    else (if words[0] == [] then [] else [words[0][0]]) + Heads(words[1..])
  }

  /** Reference definition: the characters that start a word, i.e. the
      non-space characters at the front or after a space. */
  function WordStarts(s: string, afterSpace: bool): string {
    if s == [] then []
    else (if s[0] != ' ' && afterSpace then [s[0]] else []) + WordStarts(s[1..], s[0] == ' ')
  }

  lemma {:induction false} HeadsOfSplit(s: string)
    ensures Heads(Split(s)) == WordStarts(s, true)
    ensures Heads(Split(s)[1..]) == WordStarts(s, false)
  {
    if s != [] {
      HeadsOfSplit(s[1..]);
      var rest := Split(s[1..]);
      if s[0] == ' ' {
        assert Split(s)[1..] == rest;
      } else {
        assert Split(s)[1..] == rest[1..];
      }
    }
  }

  /** `getInitials(name)`. */
  function GetInitials(name: Option<string>): string {
    var joined := if name.Some? then ToUpper(Heads(Split(name.value))) else [];
    var taken := joined[..Min(2, |joined|)];
    if taken == [] then "U" else taken
  }

  /** The initials are the first two word starts, upper-cased, or "U". */
  lemma InitialsAreWordStarts(name: string)
    ensures var w := WordStarts(name, true);
      GetInitials(Some(name)) == if w == [] then "U" else ToUpper(w)[..Min(2, |w|)]
    ensures 1 <= |GetInitials(Some(name))| <= 2
    ensures GetInitials(None) == "U"
  {
    HeadsOfSplit(name);
  }

  // ---------------------------------------------------------------------------
  // The recent list, the badge and the statistics refresh

  /** `passwords.slice(0, 3)`. */
  function Recent(ps: seq<Stored>): (r: seq<Stored>)
    ensures |r| == Min(3, |ps|)
    ensures forall i :: 0 <= i < |r| ==> r[i] == ps[i]
  {
    ps[..Min(3, |ps|)]
  }

  /** The badge of a recent password. */
  function Badge(password: string): Strength {
    if |password| >= 12 then Strong else if |password| >= 8 then Medium else Weak
  }

  /** The badge looks at the length alone, along the vault's length bands. */
  lemma BadgeIsLengthBand(p: string, q: string)
    ensures |p| == |q| ==> Badge(p) == Badge(q)
    ensures Badge(p) == Strong <==> LengthPoints(|p|) == 40
    ensures Badge(p) == Medium <==> LengthPoints(|p|) == 25
    ensures Badge(p) == Weak <==> LengthPoints(|p|) == 10
  {
  }

  /** What the page shows: the two counts, the summary and the recent list. */
  datatype View = View(passwordCount: nat, todoCount: nat, security: Security, recent: seq<Stored>)

  const Loading: View := View(0, 0, Security(100, "N/A", "Loading...", "text-muted-foreground", "neutral"), [])

  /** The todo count after the todos request (app/dashboard/page.tsx:163-174):
      its length, 0 on a 404, and unchanged on any other failure. */
  function TodoCount<T>(previous: nat, todos: ListReply<T>): nat {
    match todos
    case Listed(items) => |ItemsOr(items)|
    case Refused(status) => if status == Some(404) then 0 else previous
  }

  /** `fetchStats` (app/dashboard/page.tsx:148-191). A failed password request
      skips everything, the todos request included. */
  function FetchStats<T>(v: View, passwords: ListReply<Stored>, todos: ListReply<T>): View {
    match passwords
    case Refused(_) => v
    case Listed(items) =>
      var ps := ItemsOr(items);
      View(|ps|, TodoCount(v.todoCount, todos), SecurityOf(ps), Recent(ps))
  }

  lemma TodosNotFoundMeansZero<T>(v: View, ps: Option<seq<Stored>>, todos: ListReply<T>)
    ensures todos == Refused(Some(404)) ==> FetchStats(v, Listed(ps), todos).todoCount == 0
    ensures todos.Refused? && todos.status != Some(404) ==> FetchStats(v, Listed(ps), todos).todoCount == v.todoCount
    ensures todos.Listed? ==> FetchStats(v, Listed(ps), todos).todoCount == |ItemsOr(todos.items)|
    ensures FetchStats(v, Listed(ps), todos).passwordCount == |ItemsOr(ps)|
    ensures FetchStats(v, Listed(ps), todos).recent == Recent(ItemsOr(ps))
  {
  }
}
