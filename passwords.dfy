/** The password vault list page (app/passwords/page.tsx): strength rating,
    the site-link lookup, the visibility toggle, search, strength statistics,
    deletion and the enhancement of fetched entries. */
module Passwords {
  import opened Common

  datatype Strength = Weak | Medium | Strong

  /** The order of the three categories. */
  function Rank(s: Strength): nat {
    match s
    case Weak => 0
    case Medium => 1
    case Strong => 2
  }

  // ---------------------------------------------------------------------------
  // Strength scoring (app/passwords/page.tsx:104-124)

  predicate HasLower(p: string) { exists i :: 0 <= i < |p| && IsLower(p[i]) }
  predicate HasUpper(p: string) { exists i :: 0 <= i < |p| && IsUpper(p[i]) }
  predicate HasDigit(p: string) { exists i :: 0 <= i < |p| && IsDigit(p[i]) }
  predicate HasSpecial(p: string) { exists i :: 0 <= i < |p| && IsSpecial(p[i]) }

  /** Points for the length: 40 from 12 characters, 25 from 8, else 10. */
  function LengthPoints(n: nat): nat {
    if n >= 12 then 40 else if n >= 8 then 25 else 10
  }

  /** How many of the four character classes occur. */
  function Classes(p: string): (k: nat)
    ensures k <= 4
  {
    Bit(HasLower(p)) + Bit(HasUpper(p)) + Bit(HasDigit(p)) + Bit(HasSpecial(p))
  }

  /** The score: length points plus 15 per character class. */
  function Score(p: string): (r: nat)
    ensures 10 <= r <= 100
  {
    LengthPoints(|p|) + 15 * Classes(p)
  }

  function Category(score: int): Strength {
    if score >= 90 then Strong else if score >= 60 then Medium else Weak
  }

  function StrengthOf(p: string): Strength {
    Category(Score(p))
  }

  /** `calculatePasswordStrength`, accumulating the score step by step. */
  method CalculatePasswordStrength(password: string) returns (r: Strength)
    ensures r == StrengthOf(password)
    ensures Rank(r) == 2 <==> |password| >= 12 && Classes(password) == 4
  {
    var length := |password|;
    var score := 0;
    if length >= 12 {
      score := score + 40;
    } else if length >= 8 {
      score := score + 25;
    } else {
      score := score + 10;
    }
    if HasLower(password) { score := score + 15; }
    if HasUpper(password) { score := score + 15; }
    if HasDigit(password) { score := score + 15; }
    if HasSpecial(password) { score := score + 15; }
    if score >= 90 { return Strong; }
    if score >= 60 { return Medium; }
    return Weak;
  }

  lemma EmptyPasswordIsWeak()
    ensures Score("") == 10 && StrengthOf("") == Weak
  {
    assert Classes("") == 0;
  }

  /** 'strong' needs 12 characters and all four classes. */
  lemma StrongIff(p: string)
    ensures StrengthOf(p) == Strong <==> |p| >= 12 && Classes(p) == 4
  {
  }

  /** Exactly when a password is rated 'medium'. */
  lemma MediumIff(p: string)
    ensures StrengthOf(p) == Medium <==>
              (|p| >= 12 && 2 <= Classes(p) <= 3) || (8 <= |p| < 12 && Classes(p) >= 3) || (|p| < 8 && Classes(p) == 4)
  {
  }

  /** Below 8 characters a password is never better than 'medium'. */
  lemma ShortIsNeverStrong(p: string)
    requires |p| < 8
    ensures Rank(StrengthOf(p)) <= 1
  {
  }

  /** More length points and a superset of the character classes never give a
      lower category. */
  lemma StrengthMonotone(p: string, q: string)
    requires LengthPoints(|p|) <= LengthPoints(|q|)
    requires HasLower(p) ==> HasLower(q)
    requires HasUpper(p) ==> HasUpper(q)
    requires HasDigit(p) ==> HasDigit(q)
    requires HasSpecial(p) ==> HasSpecial(q)
    ensures Rank(StrengthOf(p)) <= Rank(StrengthOf(q))
  {
    assert Score(p) <= Score(q);
  }

  /** Appending a character (which can only cross a length threshold or add a
      class) never lowers the category. */
  lemma AppendNeverLowers(p: string, c: char)
    ensures Rank(StrengthOf(p)) <= Rank(StrengthOf(p + [c]))
  {
    var q := p + [c];
    assert forall i :: 0 <= i < |p| ==> q[i] == p[i];
    if HasLower(p) { var i :| 0 <= i < |p| && IsLower(p[i]); assert IsLower(q[i]); }
    if HasUpper(p) { var i :| 0 <= i < |p| && IsUpper(p[i]); assert IsUpper(q[i]); }
    if HasDigit(p) { var i :| 0 <= i < |p| && IsDigit(p[i]); assert IsDigit(q[i]); }
    if HasSpecial(p) { var i :| 0 <= i < |p| && IsSpecial(p[i]); assert IsSpecial(q[i]); }
    StrengthMonotone(p, q);
  }

  // ---------------------------------------------------------------------------
  // Site links (app/passwords/page.tsx:126-159)

  /** The known sites, in the order the lookup tries them. */
  const CommonDomains: seq<(string, string)> := [
    ("google", "https://accounts.google.com"),
    ("facebook", "https://facebook.com"),
    ("twitter", "https://twitter.com"),
    ("instagram", "https://instagram.com"),
    ("github", "https://github.com"),
    ("netflix", "https://netflix.com"),
    ("amazon", "https://amazon.com"),
    ("microsoft", "https://login.microsoftonline.com"),
    ("apple", "https://appleid.apple.com"),
    ("paypal", "https://paypal.com"),
    ("gmail", "https://gmail.com"),
    ("outlook", "https://outlook.com"),
    ("yahoo", "https://yahoo.com"),
    ("linkedin", "https://linkedin.com"),
    ("spotify", "https://spotify.com"),
    ("discord", "https://discord.com"),
    ("slack", "https://slack.com"),
    ("zoom", "https://zoom.us"),
    ("dropbox", "https://dropbox.com"),
    ("airbnb", "https://airbnb.com"),
    ("uber", "https://uber.com"),
    ("stripe", "https://stripe.com")
  ]

  /** The link of the first known site from position `i` on whose key occurs
      in `lower`. */
  function FirstMatch(lower: string, i: nat): Option<string>
    requires i <= |CommonDomains|
    decreases |CommonDomains| - i
  {
    if i == |CommonDomains| then None
    else if Contains(lower, CommonDomains[i].0) then Some(CommonDomains[i].1)
    else FirstMatch(lower, i + 1)
  }

  /** The guessed address for a site nobody listed. */
  function FallbackUrl(lower: string): string {
    "https://" + RemoveSpaces(lower) + ".com"
  }

  function UrlFor(appName: string): string {
    var lower := ToLower(appName);
    match FirstMatch(lower, 0)
    case Some(url) => url
    case None => FallbackUrl(lower)
  }

  /** `generateUrlFromAppName`: walks the table in order and returns at the
      first key the lower-cased name contains. */
  method GenerateUrlFromAppName(appName: string) returns (url: string)
    ensures url == UrlFor(appName)
  {
    var lower := ToLower(appName);
    var i := 0;
    while i < |CommonDomains|
      invariant 0 <= i <= |CommonDomains|
      invariant FirstMatch(lower, i) == FirstMatch(lower, 0)
    {
      if Contains(lower, CommonDomains[i].0) {
        return CommonDomains[i].1;
      }
      i := i + 1;
    }
    return FallbackUrl(lower);
  }

  lemma {:induction false} FirstMatchIsFirst(lower: string, i: nat)
    requires i <= |CommonDomains|
    ensures FirstMatch(lower, i).None? <==>
              forall j :: i <= j < |CommonDomains| ==> !Contains(lower, CommonDomains[j].0)
    ensures FirstMatch(lower, i).Some? ==>
              exists k :: i <= k < |CommonDomains| && Contains(lower, CommonDomains[k].0)
                && FirstMatch(lower, i).value == CommonDomains[k].1
                && forall j :: i <= j < k ==> !Contains(lower, CommonDomains[j].0)
    decreases |CommonDomains| - i
  {
    if i < |CommonDomains| {
      FirstMatchIsFirst(lower, i + 1);
      if !Contains(lower, CommonDomains[i].0) && FirstMatch(lower, i + 1).Some? {
        var k :| i + 1 <= k < |CommonDomains| && Contains(lower, CommonDomains[k].0)
                && FirstMatch(lower, i + 1).value == CommonDomains[k].1
                && forall j :: i + 1 <= j < k ==> !Contains(lower, CommonDomains[j].0);
        assert forall j :: i <= j < k ==> !Contains(lower, CommonDomains[j].0);
      }
    }
  }

  /** The first key, in table order, contained in the lower-cased name wins;
      with none, the link is the lower-cased name without whitespace between
      "https://" and ".com". */
  lemma UrlForCases(appName: string, k: nat)
    ensures (forall j :: 0 <= j < |CommonDomains| ==> !Contains(ToLower(appName), CommonDomains[j].0)) ==>
              UrlFor(appName) == "https://" + RemoveSpaces(ToLower(appName)) + ".com"
    ensures k < |CommonDomains| && Contains(ToLower(appName), CommonDomains[k].0)
            && (forall j :: 0 <= j < k ==> !Contains(ToLower(appName), CommonDomains[j].0)) ==>
              UrlFor(appName) == CommonDomains[k].1
  {
    var lower := ToLower(appName);
    FirstMatchIsFirst(lower, 0);
    if k < |CommonDomains| && Contains(lower, CommonDomains[k].0)
       && (forall j :: 0 <= j < k ==> !Contains(lower, CommonDomains[j].0)) {
      var m :| 0 <= m < |CommonDomains| && Contains(lower, CommonDomains[m].0)
               && FirstMatch(lower, 0).value == CommonDomains[m].1
               && forall j :: 0 <= j < m ==> !Contains(lower, CommonDomains[j].0);
      assert m == k;
    }
  }

  // ---------------------------------------------------------------------------
  // Visibility (app/passwords/page.tsx:161-171)

  /** `togglePasswordVisibility(id)` on the set of revealed ids. */
  function ToggleVisibility(visible: set<string>, id: string): (r: set<string>)
    ensures id in r <==> id !in visible
    ensures forall x :: x != id ==> (x in r <==> x in visible)
  {
    if id in visible then visible - {id} else visible + {id}
  }

  lemma ToggleTwiceRestores(visible: set<string>, id: string)
    ensures ToggleVisibility(ToggleVisibility(visible, id), id) == visible
  {
  }

  // ---------------------------------------------------------------------------
  // The list

  /** An entry as `/allpassword` returns it. */
  datatype Stored = Stored(appName: string, username: string, password: string)

  /** An entry as the page keeps it. The fields the page adds are optional in
      its type. */
  datatype Entry = Entry(
    appName: string,
    username: string,
    password: string,
    id: Option<string>,
    strength: Option<Strength>,
    url: Option<string>)

  /** The spread of a fetched entry with the id `pwd-<index>`, its rating and
      its link (app/passwords/page.tsx:83-89). */
  function Enhance(fetched: seq<Stored>): (r: seq<Entry>)
    ensures |r| == |fetched|
    ensures forall i :: 0 <= i < |r| ==>
              r[i].id == Some(IndexedId("pwd-", i))
              && r[i].appName == fetched[i].appName && r[i].username == fetched[i].username
              && r[i].password == fetched[i].password
              && r[i].strength == Some(StrengthOf(fetched[i].password)) && r[i].url == Some(UrlFor(fetched[i].appName))
  {
    seq(|fetched|, i requires 0 <= i < |fetched| =>
      Entry(fetched[i].appName, fetched[i].username, fetched[i].password,
            Some(IndexedId("pwd-", i)), Some(StrengthOf(fetched[i].password)), Some(UrlFor(fetched[i].appName))))
  }

  /** After enhancement every entry has an id and no two share one. */
  lemma EnhancedIdsDistinct(fetched: seq<Stored>)
    ensures var r := Enhance(fetched);
      (forall i :: 0 <= i < |r| ==> r[i].id.Some?)
      && forall i, j :: 0 <= i < |r| && 0 <= j < |r| && i != j ==> r[i].id != r[j].id
  {
    var r := Enhance(fetched);
    forall i, j | 0 <= i < |r| && 0 <= j < |r| && i != j
      ensures r[i].id != r[j].id
    {
      IndexedIdInjective("pwd-", i, j);
    }
  }

  /** The search matches the app name or the user name, ignoring case. */
  predicate Matches(e: Entry, query: string) {
    Contains(ToLower(e.appName), ToLower(query)) || Contains(ToLower(e.username), ToLower(query))
  }

  function FilteredPasswords(entries: seq<Entry>, query: string): seq<Entry> {
    Filter(entries, e => Matches(e, query))
  }

  /** The result keeps the order of the list, holds only matching entries and
      misses none; an empty query keeps everything. */
  lemma SearchIsOrderedSubsequence(entries: seq<Entry>, query: string)
    ensures var r := FilteredPasswords(entries, query);
      && IsSubsequence(r, entries)
      && (forall i :: 0 <= i < |r| ==> Matches(r[i], query))
      && (forall i :: 0 <= i < |entries| && Matches(entries[i], query) ==> entries[i] in r)
    ensures query == "" ==> FilteredPasswords(entries, query) == entries
  {
    FilterIsSubsequence(entries, e => Matches(e, query));
    if query == "" {
      forall i | 0 <= i < |entries|
        ensures Matches(entries[i], query)
      {
        ContainsEmpty(ToLower(entries[i].appName));
      }
      FilterAll(entries, e => Matches(e, query));
    }
  }

  datatype StrengthStats = StrengthStats(strong: nat, medium: nat, weak: nat)

  /** The test each of the three counts applies. */
  function Rated(s: Strength): Entry -> bool {
    (e: Entry) => e.strength == Some(s)
  }

  function CountStrength(entries: seq<Entry>, s: Strength): (k: nat)
    ensures k <= |entries|
  {
    |Filter(entries, Rated(s))|
  }

  /** `strengthStats` (app/passwords/page.tsx:273-277). */
  function Stats(entries: seq<Entry>): StrengthStats {
    StrengthStats(CountStrength(entries, Strong), CountStrength(entries, Medium), CountStrength(entries, Weak))
  }

  /** Once every entry carries a rating, the three counts add up to the
      total. */
  lemma StatsAddUp(entries: seq<Entry>)
    requires forall i :: 0 <= i < |entries| ==> entries[i].strength.Some?
    ensures Stats(entries).strong + Stats(entries).medium + Stats(entries).weak == |entries|
  {
    forall i | 0 <= i < |entries|
      ensures ExactlyOne(Rated(Strong), Rated(Medium), Rated(Weak), entries[i])
    {
      assert Rated(Strong)(entries[i]) == (entries[i].strength == Some(Strong));
      assert Rated(Medium)(entries[i]) == (entries[i].strength == Some(Medium));
      assert Rated(Weak)(entries[i]) == (entries[i].strength == Some(Weak));
      assert entries[i].strength == Some(entries[i].strength.value);
      match entries[i].strength.value
      case Strong =>
      case Medium =>
      case Weak =>
    }
    FilterSplit3(entries, Rated(Strong), Rated(Medium), Rated(Weak));
  }

  lemma EnhancedStatsAddUp(fetched: seq<Stored>)
    ensures var s := Stats(Enhance(fetched)); s.strong + s.medium + s.weak == |fetched|
  {
    StatsAddUp(Enhance(fetched));
  }

  /** `Math.round(strong / n * 100)`, and 0 for an empty list
      (app/passwords/page.tsx:429-431). */
  function SecurityPercent(entries: seq<Entry>): (r: nat)
    ensures r <= 100
    ensures |entries| == 0 ==> r == 0
    ensures |entries| > 0 ==> 2 * |entries| * r <= 200 * Stats(entries).strong + |entries| < 2 * |entries| * (r + 1)
  {
    if |entries| > 0 then
      RoundDivAtMost(100 * Stats(entries).strong, |entries|, 100);
      RoundDiv(100 * Stats(entries).strong, |entries|)
    else 0
  }

  /** Deleting keeps, in order, exactly the entries with another id
      (app/passwords/page.tsx:224). */
  function DeleteById(entries: seq<Entry>, id: Option<string>): seq<Entry> {
    Filter(entries, (e: Entry) => e.id != id)
  }

  lemma DeleteKeepsTheOthers(entries: seq<Entry>, id: Option<string>)
    ensures var r := DeleteById(entries, id);
      && IsSubsequence(r, entries)
      && (forall i :: 0 <= i < |r| ==> r[i].id != id)
      && (forall i :: 0 <= i < |entries| && entries[i].id != id ==> entries[i] in r)
  {
    FilterIsSubsequence(entries, (e: Entry) => e.id != id);
  }

  /** On an enhanced list, deleting an entry's id removes that entry alone. */
  lemma DeleteEnhancedRemovesOne(fetched: seq<Stored>, k: nat)
    requires k < |fetched|
    ensures |DeleteById(Enhance(fetched), Enhance(fetched)[k].id)| == |fetched| - 1
  {
    var entries := Enhance(fetched);
    EnhancedIdsDistinct(fetched);
    FilterDropsOne(entries, (e: Entry) => e.id != entries[k].id, k);
  }
}
