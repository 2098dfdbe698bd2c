/** The nudges page: the automation rules it lists and, under each rule's
    message template, the chips naming the template's placeholders. */
module Nudges {
  import opened Wrappers
  import opened Text

  datatype Channel = Email | WhatsApp

  /** One automation rule as its card header shows it (the card's colours
      are left out). */
  datatype Automation = Automation(id: nat, title: string, trigger: string, channel: Channel)

  /** `\w`: an ASCII letter, digit or underscore. */
  predicate IsWordChar(c: char) {
    'a' <= c <= 'z' || 'A' <= c <= 'Z' || '0' <= c <= '9' || c == '_'
  }

  /** A whole match of `\{\{(\w+)\}\}`: two opening braces, at least one word
      character, two closing braces. */
  predicate IsPlaceholder(t: string) {
    && |t| >= 5
    && t[0] == '{' && t[1] == '{'
    && t[|t| - 2] == '}' && t[|t| - 1] == '}'
    && forall i :: 2 <= i < |t| - 2 ==> IsWordChar(t[i])
  }

  /** The length of the greedy `\w+` run at the start of `s`. */
  function WordRun(s: string): (n: nat)
    ensures n <= |s|
    ensures forall i :: 0 <= i < n ==> IsWordChar(s[i])
    ensures n < |s| ==> !IsWordChar(s[n])
  {
    if s != [] && IsWordChar(s[0]) then 1 + WordRun(s[1..]) else 0
  }

  /** The length of the match the pattern finds at the start of `s`: it is
      `n` exactly when the first `n` characters form a placeholder, so there
      is at most one such `n` and backtracking finds no other. */
  function MatchAt(s: string): (r: Option<nat>)
    ensures r.Some? ==> r.value <= |s|
    ensures forall n :: 0 <= n <= |s| ==> (IsPlaceholder(s[..n]) <==> r == Some(n))
  {
    if |s| >= 2 && s[0] == '{' && s[1] == '{' then
      var k := WordRun(s[2..]);
      forall n | 0 <= n <= |s| && IsPlaceholder(s[..n]) ensures n == k + 4 {
        PlaceholderRun(s, n);
      }
      if 0 < k && k + 4 <= |s| && s[k + 2] == '}' && s[k + 3] == '}' then
        var p := s[..k + 4];
        assert IsPlaceholder(p) by {
          forall i | 2 <= i < k + 2 ensures IsWordChar(p[i]) {
            assert p[i] == s[2..][i - 2];
          }
        }
        Some(k + 4)
      else None
    else
      None
  }

  /** In a placeholder prefix, the word run after the braces ends at the
      closing braces. */
  lemma PlaceholderRun(s: string, n: int)
    requires 2 <= |s| && 0 <= n <= |s| && IsPlaceholder(s[..n])
    ensures WordRun(s[2..]) == n - 4
  {
  }

  /** `s.match(/\{\{(\w+)\}\}/g)`, with `null` (no match) as the empty
      sequence: the scan takes each match whole and resumes after it, and
      moves on by one character where no match starts. */
  function Matches(s: string): seq<string>
    decreases |s|
  {
    if s == [] then []
    else match MatchAt(s)
      case Some(n) => [s[..n]] + Matches(s[n..])
      case None => Matches(s[1..])
  }

  /** Every match is a placeholder that occurs in the template. */
  lemma {:induction false} MatchesArePlaceholders(s: string)
    ensures forall m :: m in Matches(s) ==> IsPlaceholder(m) && Contains(s, m)
    decreases |s|
  {
    if s != [] {
      match MatchAt(s)
      case Some(n) =>
        MatchesArePlaceholders(s[n..]);
        ContainsSlice(s, 0, n);
        forall m | m in Matches(s[n..]) ensures Contains(s, m) {
          ContainsInSuffix(s, n, m);
        }
      case None =>
        MatchesArePlaceholders(s[1..]);
        forall m | m in Matches(s[1..]) ensures Contains(s, m) {
          ContainsInSuffix(s, 1, m);
        }
    }
  }

  /** A placeholder anywhere in the template is enough for the scan to
      find a match. */
  lemma {:induction false} MatchesFindPlaceholder(s: string, i: int, j: int)
    requires 0 <= i <= j <= |s| && IsPlaceholder(s[i..j])
    ensures Matches(s) != []
    decreases i
  {
    if MatchAt(s).None? {
      if i == 0 {
        assert false;
      }
      assert s[1..][i - 1..j - 1] == s[i..j];
      MatchesFindPlaceholder(s[1..], i - 1, j - 1);
    }
  }

  /** Text without an opening brace holds no match, whatever follows it. */
  lemma {:induction false} MatchesSkipBraceFree(u: string, t: string)
    requires '{' !in u
    ensures Matches(u + t) == Matches(t)
  {
    if u != [] {
      var s := u + t;
      assert s[0] == u[0] && u[0] in u;
      assert s[1..] == u[1..] + t;
      assert forall c :: c in u[1..] ==> c in u;
      MatchesSkipBraceFree(u[1..], t);
    } else {
      assert u + t == t;
    }
  }

  /** A placeholder at the start is matched whole, and the scan goes on
      after it. */
  lemma MatchesTakePlaceholder(p: string, t: string)
    requires IsPlaceholder(p)
    ensures Matches(p + t) == [p] + Matches(t)
  {
    var s := p + t;
    assert s[..|p|] == p;
    assert s[|p|..] == t;
  }

  /** The index of the first occurrence of `x` in `a`, or -1: `a.indexOf(x)`. */
  function IndexOf(a: seq<string>, x: string): (r: int)
    ensures -1 <= r < |a|
    ensures r == -1 <==> x !in a
    ensures r >= 0 ==> a[r] == x && forall j :: 0 <= j < r ==> a[j] != x
  {
    if a == [] then -1
    else if a[0] == x then 0
    else
      var k := IndexOf(a[1..], x);
      if k == -1 then -1 else k + 1
  }

  /** `a.slice(i).filter((v, j) => a.indexOf(v) === j)` with `j` counted
      from the start of `a`: the elements from `i` on that occur there for
      the first time. */
  function FirstOccurrences(a: seq<string>, i: nat): seq<string>
    decreases |a| - i
  {
    if i >= |a| then []
    else (if IndexOf(a, a[i]) == i then [a[i]] else []) + FirstOccurrences(a, i + 1)
  }

  /** FirstOccurrences keeps every element first seen at `i` or later, and
      nothing else. */
  lemma {:induction false} FirstOccurrencesMembers(a: seq<string>, i: nat)
    requires i <= |a|
    ensures forall x :: x in FirstOccurrences(a, i) <==> x in a && IndexOf(a, x) >= i
    decreases |a| - i
  {
    if i < |a| {
      FirstOccurrencesMembers(a, i + 1);
      forall x | x in a && IndexOf(a, x) == i ensures x in FirstOccurrences(a, i) {
        assert a[i] == x;
      }
    }
  }

  /** FirstOccurrences lists what it keeps in the order of the first
      occurrences, so it keeps each element once. */
  lemma {:induction false} FirstOccurrencesOrdered(a: seq<string>, i: nat)
    requires i <= |a|
    ensures forall p, q :: 0 <= p < q < |FirstOccurrences(a, i)| ==>
      IndexOf(a, FirstOccurrences(a, i)[p]) < IndexOf(a, FirstOccurrences(a, i)[q])
    decreases |a| - i
  {
    if i < |a| && IndexOf(a, a[i]) == i {
      var rest := FirstOccurrences(a, i + 1);
      FirstOccurrencesOrdered(a, i + 1);
      FirstOccurrencesMembers(a, i + 1);
      var r := [a[i]] + rest;
      assert r == FirstOccurrences(a, i);
      forall p, q | 0 <= p < q < |r| ensures IndexOf(a, r[p]) < IndexOf(a, r[q]) {
        assert r[q] == rest[q - 1] && rest[q - 1] in rest;
        if p > 0 {
          assert r[p] == rest[p - 1];
        }
      }
    } else if i < |a| {
      FirstOccurrencesOrdered(a, i + 1);
    }
  }

  /** The chips under a template: its matches without repetitions, each
      kept where it first appears (the chips are keyed by their text). */
  function Chips(template: string): seq<string> {
    FirstOccurrences(Matches(template), 0)
  }

  /** The chips are exactly the distinct placeholders the scan matches, each
      a placeholder occurring in the template, in the order of their first
      appearance. */
  lemma ChipsSpec(template: string)
    ensures forall c :: c in Chips(template) <==> c in Matches(template)
    ensures forall c :: c in Chips(template) ==> IsPlaceholder(c) && Contains(template, c)
    ensures forall p, q :: 0 <= p < q < |Chips(template)| ==> Chips(template)[p] != Chips(template)[q]
    ensures forall p, q :: 0 <= p < q < |Chips(template)| ==>
      IndexOf(Matches(template), Chips(template)[p]) < IndexOf(Matches(template), Chips(template)[q])
  {
    FirstOccurrencesMembers(Matches(template), 0);
    FirstOccurrencesOrdered(Matches(template), 0);
    MatchesArePlaceholders(template);
  }

  /** Some slice of the template is a placeholder. */
  predicate HasPlaceholder(s: string) {
    exists i, j :: 0 <= i <= j <= |s| && IsPlaceholder(s[i..j])
  }

  /** A scan that finds something has found a placeholder. */
  lemma {:induction false} MatchesWitness(s: string)
    requires Matches(s) != []
    ensures HasPlaceholder(s)
    decreases |s|
  {
    match MatchAt(s)
    case Some(n) =>
      assert s[0..n] == s[..n];
    case None =>
      MatchesWitness(s[1..]);
      var i, j :| 0 <= i <= j <= |s[1..]| && IsPlaceholder(s[1..][i..j]);
      assert s[1..][i..j] == s[i + 1..j + 1];
  }

  /** The scan finds nothing exactly when the text has no placeholder. */
  lemma NoMatchesIff(s: string)
    ensures Matches(s) == [] <==> !HasPlaceholder(s)
  {
    if HasPlaceholder(s) {
      var i, j :| 0 <= i <= j <= |s| && IsPlaceholder(s[i..j]);
      MatchesFindPlaceholder(s, i, j);
    }
    if Matches(s) != [] {
      MatchesWitness(s);
    }
  }

  /** A template shows no chips exactly when it has no placeholder. */
  lemma NoPlaceholderNoChips(template: string)
    ensures Chips(template) == [] <==> !HasPlaceholder(template)
  {
    var ms := Matches(template);
    NoMatchesIff(template);
    FirstOccurrencesMembers(ms, 0);
    if ms != [] {
      assert ms[0] in Chips(template);
    }
  }

  /** The first rule's template, as its plain pieces and its three
      placeholders; spelled out, it is the text of the source's template. */
  const FirstVideoNudge: string :=
    "Hi " + ("{{first_name}}" + (FirstVideoBody + ("{{city}}" + ("\n\nYour code is " + ("{{creator_code}}" + FirstVideoSignOff)))))

  /** The lines of the first template's body and its sign-off, each cut at
      word boundaries into short pieces: each line's lack of braces is then
      a small proof of its own. */
  const WelcomeLine := "Welcome to " + "NeoTaste! " + "We noticed " + "you haven't " + "posted your " + "first video " + "yet — no " + "pressure at " + "all!"
  const IdeasLine := "Here are " + "some quick " + "ideas to " + "get started:"
  const VisitLine := "• Visit a " + "trending " + "restaurant " + "and share " + "your honest " + "review"
  const TopDishesLine := "• Try our " + "\"Top 5 " + "dishes\" " + "format — it " + "always " + "performs " + "well"
  const StoryLine := "• Share a " + "quick story " + "about a " + "hidden gem " + "in "
  const FirstVideoBody := " 👋\n\n" + WelcomeLine + "\n\n" + IdeasLine + "\n" + VisitLine + "\n" + TopDishesLine + "\n" + StoryLine
  const FirstVideoSignOff := " — share it " + "whenever " + "you're " + "ready!\n\n" + "Best,\nThe " + "NeoTaste " + "Team"

  lemma WelcomeLineBraceFree() ensures '{' !in WelcomeLine {}
  lemma IdeasLineBraceFree() ensures '{' !in IdeasLine {}
  lemma VisitLineBraceFree() ensures '{' !in VisitLine {}
  lemma TopDishesLineBraceFree() ensures '{' !in TopDishesLine {}
  lemma StoryLineBraceFree() ensures '{' !in StoryLine {}
  lemma SignOffBraceFree() ensures '{' !in FirstVideoSignOff {}

  /** Between its placeholders the first template has no brace. */
  lemma FirstVideoBodyBraceFree()
    ensures '{' !in FirstVideoBody
  {
    WelcomeLineBraceFree();
    IdeasLineBraceFree();
    VisitLineBraceFree();
    TopDishesLineBraceFree();
    StoryLineBraceFree();
  }

  /** Three placeholders separated by brace-free text are matched in order
      and nothing else is. */
  lemma MatchesThreePlaceholders(a: string, p1: string, b: string, p2: string, c: string, p3: string, d: string)
    requires '{' !in a && '{' !in b && '{' !in c && '{' !in d
    requires IsPlaceholder(p1) && IsPlaceholder(p2) && IsPlaceholder(p3)
    ensures Matches(a + (p1 + (b + (p2 + (c + (p3 + d)))))) == [p1, p2, p3]
  {
    MatchesSkipBraceFree(d, []);
    assert d + [] == d;
    MatchesTakePlaceholder(p3, d);
    MatchesSkipBraceFree(c, p3 + d);
    MatchesTakePlaceholder(p2, c + (p3 + d));
    MatchesSkipBraceFree(b, p2 + (c + (p3 + d)));
    MatchesTakePlaceholder(p1, b + (p2 + (c + (p3 + d))));
    MatchesSkipBraceFree(a, p1 + (b + (p2 + (c + (p3 + d)))));
  }

  /** Three different matches all become chips, in their order. */
  lemma FirstOccurrencesOfDistinct(p1: string, p2: string, p3: string)
    requires p1 != p2 && p1 != p3 && p2 != p3
    ensures FirstOccurrences([p1, p2, p3], 0) == [p1, p2, p3]
  {
    var a := [p1, p2, p3];
    assert IndexOf(a, p1) == 0;
    assert IndexOf(a, p2) == 1 by {
      assert a[1..] == [p2, p3];
    }
    assert IndexOf(a, p3) == 2 by {
      assert a[1..] == [p2, p3] && a[1..][1..] == [p3];
    }
    assert FirstOccurrences(a, 3) == [];
    assert FirstOccurrences(a, 2) == [p3];
    assert FirstOccurrences(a, 1) == [p2, p3];
  }

  /** The first rule's card shows exactly the chips `{{first_name}}`,
      `{{city}}` and `{{creator_code}}`, in that order. */
  lemma FirstVideoNudgeChips()
    ensures Chips(FirstVideoNudge) == ["{{first_name}}", "{{city}}", "{{creator_code}}"]
  {
    FirstVideoBodyBraceFree();
    SignOffBraceFree();
    MatchesThreePlaceholders("Hi ", "{{first_name}}", FirstVideoBody, "{{city}}", "\n\nYour code is ", "{{creator_code}}", FirstVideoSignOff);
    FirstOccurrencesOfDistinct("{{first_name}}", "{{city}}", "{{creator_code}}");
  }

  /** The six automation rules, in the order the page lists them. */
  const Automations: seq<Automation> := [
    Automation(1, "First Video Nudge", "7 days after signup, no content posted", Email),
    Automation(2, "Weekly Inactive Reminder", "7+ days since last activity", WhatsApp),
    Automation(3, "First Referral Celebration", "First successful referral conversion", Email),
    Automation(4, "10 Referrals Milestone", "10 successful referral conversions", Email),
    Automation(5, "50 Referrals Milestone — Star Creator", "50 successful referral conversions", WhatsApp),
    Automation(6, "Content Ideas Weekly", "Every Monday at 9:00 AM", Email)
  ]

  /** The "active rules" label, the number of rules listed, reads six, and
      the rules' ids, which key their cards, are 1 to 6 in order. */
  lemma SixActiveRules()
    ensures |Automations| == 6
    ensures forall i :: 0 <= i < |Automations| ==> Automations[i].id == i + 1
  {
  }
}
