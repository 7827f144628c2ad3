/** Permanent identifiers for rules, derived from their names the first time and kept after that. */
module RuleIds {
  const MAX_ID: nat := 64

  predicate Plain(c: char) {
    'a' <= c <= 'z' || '0' <= c <= '9'
  }

  predicate IdChar(c: char) {
    Plain(c) || c == '-'
  }

  /** 1 to 64 lowercase letters, digits and hyphens, with no hyphen at either end. */
  predicate IsRuleId(s: string) {
    && 1 <= |s| <= MAX_ID
    && (forall i | 0 <= i < |s| :: IdChar(s[i]))
    && s[0] != '-' && s[|s| - 1] != '-'
  }

  // -- a slug ------------------------------------------------------------------------------------

  function Lowered(c: char): char {
    if 'A' <= c <= 'Z' then c - 'A' + 'a' else c
  }

  /** Every run of anything else becomes one hyphen. `inRun`: the character before was part of one. */
  function Dashed(name: string, inRun: bool): string {
    if name == "" then ""
    else if Plain(Lowered(name[0])) then [Lowered(name[0])] + Dashed(name[1..], false)
    else (if inRun then "" else "-") + Dashed(name[1..], true)
  }

  function StripLeft(s: string): string {
    if s != "" && s[0] == '-' then StripLeft(s[1..]) else s
  }

  function StripRight(s: string): string {
    if s != "" && s[|s| - 1] == '-' then StripRight(s[..|s| - 1]) else s
  }

  function Strip(s: string): string {
    StripRight(StripLeft(s))
  }

  function Front(s: string, n: nat): string {
    if |s| <= n then s else s[..n]
  }

  function Slug(name: string): string {
    var text := Strip(Front(Strip(Dashed(name, false)), MAX_ID));
    if text == "" then "rule" else text
  }

  /** Nothing but lowercase letters, digits and hyphens, never two hyphens in a row. */
  predicate Tidy(s: string) {
    && (forall i | 0 <= i < |s| :: IdChar(s[i]))
    && (forall i | 0 < i < |s| :: s[i - 1] != '-' || s[i] != '-')
  }

  lemma {:induction false} DashedIsTidy(name: string, inRun: bool)
    ensures Tidy(Dashed(name, inRun))
    ensures inRun && Dashed(name, inRun) != "" ==> Dashed(name, inRun)[0] != '-'
    decreases name
  {
    if name != "" {
      DashedIsTidy(name[1..], !Plain(Lowered(name[0])));
    }
  }

  lemma {:induction false} StripLeftIs(s: string)
    ensures exists i | 0 <= i <= |s| :: StripLeft(s) == s[i..]
    ensures StripLeft(s) != "" ==> StripLeft(s)[0] != '-'
    decreases s
  {
    if s != "" && s[0] == '-' {
      StripLeftIs(s[1..]);
      var i :| 0 <= i <= |s[1..]| && StripLeft(s[1..]) == s[1..][i..];
      assert s[1..][i..] == s[i + 1..];
    } else {
      assert s[0..] == s;
    }
  }

  lemma {:induction false} StripRightIs(s: string)
    ensures exists i | 0 <= i <= |s| :: StripRight(s) == s[..i]
    ensures StripRight(s) != "" ==> StripRight(s)[|StripRight(s)| - 1] != '-'
    ensures (exists i | 0 <= i < |s| :: s[i] != '-') ==> StripRight(s) != ""
    decreases s
  {
    if s != "" && s[|s| - 1] == '-' {
      var t := s[..|s| - 1];
      StripRightIs(t);
      var i :| 0 <= i <= |t| && StripRight(t) == t[..i];
      assert t[..i] == s[..i];
      if j :| 0 <= j < |s| && s[j] != '-' {
        assert t[j] != '-';
      }
    } else {
      assert s[..|s|] == s;
    }
  }

  lemma TidyPart(s: string, i: nat, j: nat)
    requires Tidy(s) && i <= j <= |s|
    ensures Tidy(s[i..j])
  {
  }

  lemma StripIs(s: string)
    requires Tidy(s)
    ensures Tidy(Strip(s)) && |Strip(s)| <= |s|
    ensures Strip(s) != "" ==> Strip(s)[0] != '-' && Strip(s)[|Strip(s)| - 1] != '-'
  {
    StripLeftIs(s);
    var i :| 0 <= i <= |s| && StripLeft(s) == s[i..];
    TidyPart(s, i, |s|);
    StripRightIs(s[i..]);
    var j :| 0 <= j <= |s[i..]| && StripRight(s[i..]) == s[i..][..j];
    TidyPart(s[i..], 0, j);
  }

  /** A slug may be an identifier. */
  lemma SlugIsARuleId(name: string)
    ensures IsRuleId(Slug(name)) && Tidy(Slug(name))
  {
    DashedIsTidy(name, false);
    var dashed := Strip(Dashed(name, false));
    StripIs(Dashed(name, false));
    TidyPart(dashed, 0, |Front(dashed, MAX_ID)|);
    assert Front(dashed, MAX_ID) == dashed[0..|Front(dashed, MAX_ID)|];
    StripIs(Front(dashed, MAX_ID));
  }

  lemma {:induction false} DashedKeepsTidy(s: string, inRun: bool)
    requires Tidy(s) && (inRun && s != "" ==> s[0] != '-')
    ensures Dashed(s, inRun) == s
    decreases s
  {
    if s != "" {
      DashedKeepsTidy(s[1..], s[0] == '-');
    }
  }

  /** Making a slug of a slug changes nothing. */
  lemma SlugOfASlug(name: string)
    ensures Slug(Slug(name)) == Slug(name)
  {
    var s := Slug(name);
    SlugIsARuleId(name);
    DashedKeepsTidy(s, false);
  }

  // -- what a slug says -------------------------------------------------------------------------------

  /** The words of a name: its runs of letters and digits, lowered; `word` is the one begun. */
  function Words(word: string, name: string): seq<string>
    decreases name
  {
    var ended := if word == "" then [] else [word];
    if name == "" then ended
    else if Plain(Lowered(name[0])) then Words(word + [Lowered(name[0])], name[1..])
    else ended + Words("", name[1..])
  }

  function Hyphenated(words: seq<string>): string
    decreases words
  {
    if words == [] then "" else if |words| == 1 then words[0] else words[0] + "-" + Hyphenated(words[1..])
  }

  lemma {:induction false} StripRightConcat(a: string, b: string)
    ensures StripRight(a + b) == if StripRight(b) == "" then StripRight(a) else a + StripRight(b)
    decreases b
  {
    if b == "" {
      assert a + b == a;
    } else if b[|b| - 1] == '-' {
      assert (a + b)[..|a + b| - 1] == a + b[..|b| - 1];
      StripRightConcat(a, b[..|b| - 1]);
    } else {
      assert (a + b)[|a + b| - 1] == b[|b| - 1];
    }
  }

  predicate IsWord(word: string) {
    word != "" && word[|word| - 1] != '-'
  }

  lemma StripsToItself(word: string)
    requires IsWord(word)
    ensures StripRight(word) == word
  {
  }

  lemma {:induction false} WordsAreWords(word: string, name: string)
    requires word == "" || IsWord(word)
    ensures forall i | 0 <= i < |Words(word, name)| :: IsWord(Words(word, name)[i])
    ensures word != "" ==> Words(word, name) != []
    decreases name
  {
    if name != "" {
      WordsAreWords(if Plain(Lowered(name[0])) then word + [Lowered(name[0])] else "", name[1..]);
    }
  }

  lemma HyphenatedIsNotEmpty(words: seq<string>)
    requires words != [] && IsWord(words[0])
    ensures Hyphenated(words) != ""
  {
  }

  /** Dashing and stripping is putting hyphens between the words. */
  lemma {:induction false} DashedIsHyphenated(word: string, name: string)
    requires word == "" || IsWord(word)
    ensures word != "" ==> StripRight(word + Dashed(name, false)) == Hyphenated(Words(word, name))
    ensures word == "" ==> StripRight(Dashed(name, true)) == Hyphenated(Words("", name))
    decreases name
  {
    if name == "" {
      assert word + "" == word;
      if word != "" {
        StripsToItself(word);
      }
    } else if Plain(Lowered(name[0])) {
      var c := Lowered(name[0]);
      DashedIsHyphenated(word + [c], name[1..]);
      assert word + ([c] + Dashed(name[1..], false)) == (word + [c]) + Dashed(name[1..], false);
      assert "" + [c] == [c];
    } else {
      DashedIsHyphenated("", name[1..]);
      if word == "" {
        assert "" + Dashed(name[1..], true) == Dashed(name[1..], true) && [] + Words("", name[1..]) == Words("", name[1..]);
      } else {
        WordEnds(word, name[1..]);
      }
    }
  }

  lemma WordEnds(word: string, rest: string)
    requires IsWord(word) && StripRight(Dashed(rest, true)) == Hyphenated(Words("", rest))
    ensures StripRight(word + ("-" + Dashed(rest, true))) == Hyphenated([word] + Words("", rest))
  {
    var later := Words("", rest);
    WordsAreWords("", rest);
    StripRightConcat("-", Dashed(rest, true));
    StripRightConcat(word, "-" + Dashed(rest, true));
    StripsToItself(word);
    assert StripRight("-") == "" by { assert "-"[..0] == ""; }
    if later == [] {
      assert [word] + later == [word];
    } else {
      HyphenatedIsNotEmpty(later);
      assert ([word] + later)[1..] == later;
      assert word + ("-" + Hyphenated(later)) == word + "-" + Hyphenated(later);
    }
  }

  lemma StrippedIsHyphenated(name: string)
    ensures Strip(Dashed(name, false)) == Hyphenated(Words("", name))
  {
    if name != "" {
      DashedIsTidy(name[1..], true);
      if Plain(Lowered(name[0])) {
        var c := Lowered(name[0]);
        DashedIsHyphenated([c], name[1..]);
        assert "" + [c] == [c];
      } else {
        DashedIsHyphenated("", name[1..]);
        assert Dashed(name, false)[1..] == Dashed(name[1..], true);
        assert [] + Words("", name[1..]) == Words("", name[1..]);
        NothingToStrip(Dashed(name[1..], true));
      }
    }
  }

  lemma NothingToStrip(s: string)
    requires s == "" || s[0] != '-'
    ensures StripLeft(s) == s
  {
  }

  /** A slug is the words of the name with hyphens between them, as much of it as fits 64 characters and does not end in
      a hyphen; a name with no words in it is called a rule. */
  lemma SlugSaysTheName(name: string)
    ensures var text := Hyphenated(Words("", name));
            Slug(name) == if text == "" then "rule"
                          else if |text| <= 64 then text
                          else if text[63] == '-' then text[..63] else text[..64]
  {
    var text := Hyphenated(Words("", name));
    StrippedIsHyphenated(name);
    DashedIsTidy(name, false);
    StripIs(Dashed(name, false));
    var front := Front(text, MAX_ID);
    NothingToStrip(front);
    if text != "" {
      if front[|front| - 1] == '-' {
        assert front[..|front| - 1] == text[..63];
        StripsToItself(text[..63]);
      } else {
        StripsToItself(front);
      }
    }
  }

  // -- numbering --------------------------------------------------------------------------------------

  function DigitChar(d: nat): char
    requires d < 10
  {
    '0' + d as char
  }

  function Decimal(n: nat): string {
    if n < 10 then [DigitChar(n)] else Decimal(n / 10) + [DigitChar(n % 10)]
  }

  function Suffix(n: nat): string {
    "-" + Decimal(n)
  }

  /** `wanted[:k].rstrip("-")`, with a negative `k` counted from the end. */
  function Cut(wanted: string, k: int): string {
    StripRight(if k >= 0 then Front(wanted, k) else if |wanted| + k >= 0 then wanted[..|wanted| + k] else "")
  }

  /** The identifier tried with counter `n`. */
  function Candidate(wanted: string, n: nat): string {
    Cut(wanted, MAX_ID - |Suffix(n)|) + Suffix(n)
  }

  lemma {:induction false} DecimalIs(n: nat)
    ensures Decimal(n) != "" && forall i | 0 <= i < |Decimal(n)| :: '0' <= Decimal(n)[i] <= '9'
    decreases n
  {
    if n >= 10 {
      DecimalIs(n / 10);
    }
  }

  lemma {:induction false} DecimalIsInjective(m: nat, n: nat)
    requires Decimal(m) == Decimal(n)
    ensures m == n
    decreases m
  {
    DecimalIs(m / 10);
    DecimalIs(n / 10);
    assert Decimal(m)[|Decimal(m)| - 1] == DigitChar(m % 10) && Decimal(n)[|Decimal(n)| - 1] == DigitChar(n % 10);
    assert m % 10 == n % 10 by {
      DigitsDiffer(m % 10, n % 10);
    }
    if m >= 10 && n >= 10 {
      assert Decimal(m)[..|Decimal(m)| - 1] == Decimal(m / 10) && Decimal(n)[..|Decimal(n)| - 1] == Decimal(n / 10);
      DecimalIsInjective(m / 10, n / 10);
    }
  }

  lemma DigitsDiffer(a: nat, b: nat)
    requires a < 10 && b < 10 && DigitChar(a) == DigitChar(b)
    ensures a == b
  {
  }

  /** Where two texts put their last hyphen before digits only, the digits are the same. */
  lemma SameTail(a: string, b: string, c: string, d: string)
    requires a + "-" + b == c + "-" + d
    requires '-' !in b && '-' !in d
    ensures b == d
  {
    var s := a + "-" + b;
    assert s[|a|] == '-' && s[|c|] == '-';
    assert s[|a| + 1..] == b && s[|c| + 1..] == d;
  }

  lemma CandidatesDiffer(wanted: string, m: nat, n: nat)
    requires Candidate(wanted, m) == Candidate(wanted, n)
    ensures m == n
  {
    DecimalIs(m);
    DecimalIs(n);
    var a, c := Cut(wanted, MAX_ID - |Suffix(m)|), Cut(wanted, MAX_ID - |Suffix(n)|);
    assert Candidate(wanted, m) == a + "-" + Decimal(m) && Candidate(wanted, n) == c + "-" + Decimal(n);
    SameTail(a, Decimal(m), c, Decimal(n));
    DecimalIsInjective(m, n);
  }

  function Tried(wanted: string, n: nat): set<string>
    requires n >= 2
  {
    set k | 2 <= k < n :: Candidate(wanted, k)
  }

  /** As many candidates have been tried as there are numbers: all of them taken, none twice. */
  lemma {:induction false} TriedAreMany(wanted: string, n: nat)
    requires n >= 2
    ensures |Tried(wanted, n)| == n - 2
    decreases n
  {
    hide Candidate;
    if n > 2 {
      TriedAreMany(wanted, n - 1);
      assert Tried(wanted, n) == Tried(wanted, n - 1) + {Candidate(wanted, n - 1)};
      if Candidate(wanted, n - 1) in Tried(wanted, n - 1) {
        var k :| 2 <= k < n - 1 && Candidate(wanted, k) == Candidate(wanted, n - 1);
        CandidatesDiffer(wanted, k, n - 1);
      }
    }
  }

  lemma {:induction false} Fewer<T>(a: set<T>, b: set<T>)
    requires a <= b
    ensures |a| <= |b|
    decreases a
  {
    if a != {} {
      var x :| x in a;
      Fewer(a - {x}, b - {x});
    }
  }

  predicate AllTaken(wanted: string, taken: set<string>, n: nat) {
    forall k | 2 <= k < n :: Candidate(wanted, k) in taken
  }

  /** At most as many tries fail as there are identifiers taken. */
  lemma TriesAreBounded(wanted: string, taken: set<string>, n: nat)
    requires n >= 2 && AllTaken(wanted, taken, n)
    ensures n - 2 <= |taken|
  {
    TriedAreMany(wanted, n);
    Fewer(Tried(wanted, n), taken);
  }

  function FirstFree(wanted: string, taken: set<string>, n: nat): (id: string)
    requires n >= 2 && AllTaken(wanted, taken, n)
    ensures id !in taken
    ensures exists k | n <= k <= |taken| + 2 :: id == Candidate(wanted, k)
    decreases |taken| + 2 - n
  {
    TriesAreBounded(wanted, taken, n);
    if Candidate(wanted, n) !in taken then Candidate(wanted, n)
    else
      TriesAreBounded(wanted, taken, n + 1);
      FirstFree(wanted, taken, n + 1)
  }

  function Pick(wanted: string, taken: set<string>): (id: string)
    ensures id !in taken
  {
    if wanted !in taken then wanted else FirstFree(wanted, taken, 2)
  }

  function Wanted(name: string, known: map<string, string>): string {
    if name in known && known[name] != "" then known[name] else Slug(name)
  }

  function AsSet(ids: seq<string>): set<string> {
    set id | id in ids
  }

  function AssignIds(names: seq<string>, known: map<string, string>): (ids: seq<string>)
    ensures |ids| == |names|
    decreases names
  {
    if names == [] then []
    else
      var before := AssignIds(names[..|names| - 1], known);
      before + [Pick(Wanted(names[|names| - 1], known), AsSet(before))]
  }

  method AssignAll(names: seq<string>, known: map<string, string>) returns (ids: seq<string>)
    ensures ids == AssignIds(names, known)
  {
    hide Pick, Wanted;
    var taken: set<string> := {};
    ids := [];
    var i := 0;
    assert names[..0] == [];
    while i < |names|
      invariant i <= |names| && ids == AssignIds(names[..i], known) && taken == AsSet(ids)
    {
      var candidate := PickOne(Wanted(names[i], known), taken);
      assert names[..i + 1][..i] == names[..i];
      taken := taken + {candidate};
      ids := ids + [candidate];
      i := i + 1;
    }
    assert names[..i] == names;
  }

  method PickOne(wanted: string, taken: set<string>) returns (candidate: string)
    ensures candidate == Pick(wanted, taken)
  {
    hide Candidate;
    var counter := 2;
    candidate := wanted;
    while candidate in taken
      invariant counter >= 2 && AllTaken(wanted, taken, counter - 1)
      invariant counter == 2 ==> candidate == wanted
      invariant counter > 2 ==> candidate == Candidate(wanted, counter - 1) && wanted in taken
      invariant counter > 2 ==> FirstFree(wanted, taken, 2) == FirstFree(wanted, taken, counter - 1)
      decreases |taken| + 4 - counter
    {
      TriesAreBounded(wanted, taken, counter);
      candidate := CandidateFor(wanted, counter);
      counter := counter + 1;
    }
  }

  method CandidateFor(wanted: string, counter: nat) returns (candidate: string)
    ensures candidate == Candidate(wanted, counter)
  {
    var suffix := "-" + Decimal(counter);
    return Cut(wanted, MAX_ID - |suffix|) + suffix;
  }

  /** The number some digits stand for. */
  function ValueOf(digits: string): nat
    requires forall i | 0 <= i < |digits| :: '0' <= digits[i] <= '9'
    decreases digits
  {
    if digits == "" then 0 else 10 * ValueOf(digits[..|digits| - 1]) + (digits[|digits| - 1] - '0') as nat
  }

  lemma {:induction false} DecimalStandsFor(n: nat)
    ensures forall i | 0 <= i < |Decimal(n)| :: '0' <= Decimal(n)[i] <= '9'
    ensures ValueOf(Decimal(n)) == n && (n > 0 ==> Decimal(n)[0] != '0')
    decreases n
  {
    DecimalIs(n);
    var last := |Decimal(n)| - 1;
    assert Decimal(n)[last] - '0' == (n % 10) as char;
    if n >= 10 {
      DecimalStandsFor(n / 10);
      assert Decimal(n)[..last] == Decimal(n / 10);
    } else {
      assert Decimal(n)[..last] == "";
    }
  }

  /** A numbered form is what is wanted, as much of it as leaves room for the number within 64 characters and does not
      end in a hyphen, then a hyphen and the number. */
  lemma CandidateSays(wanted: string, n: nat) returns (kept: nat)
    requires |Decimal(n)| < 63
    ensures kept <= |wanted| && Candidate(wanted, n) == wanted[..kept] + "-" + Decimal(n)
    ensures kept + 1 + |Decimal(n)| <= 64
    ensures kept > 0 ==> wanted[kept - 1] != '-'
    ensures forall i | kept <= i < |wanted| && i < 63 - |Decimal(n)| :: wanted[i] == '-'
  {
    var room := 63 - |Decimal(n)|;
    assert MAX_ID - |Suffix(n)| == room;
    var front := Front(wanted, room);
    kept := StripRightKeeps(front);
    assert front[..kept] == wanted[..kept];
  }

  lemma {:induction false} StripRightKeeps(s: string) returns (kept: nat)
    ensures kept <= |s| && StripRight(s) == s[..kept]
    ensures kept > 0 ==> s[kept - 1] != '-'
    ensures forall i | kept <= i < |s| :: s[i] == '-'
    decreases s
  {
    if s != "" && s[|s| - 1] == '-' {
      kept := StripRightKeeps(s[..|s| - 1]);
    } else {
      kept := |s|;
    }
  }

  // -- what the list of identifiers guarantees ------------------------------------------------------------

  ghost predicate AllDifferent(s: seq<string>) {
    forall i, j | 0 <= i < j < |s| :: s[i] != s[j]
  }

  /** As many identifiers as names, and no two alike. */
  lemma {:induction false} IdsAreDistinct(names: seq<string>, known: map<string, string>)
    ensures AllDifferent(AssignIds(names, known))
    decreases names
  {
    hide Pick, Wanted;
    if names != [] {
      var before := AssignIds(names[..|names| - 1], known);
      IdsAreDistinct(names[..|names| - 1], known);
      assert forall i | 0 <= i < |before| :: before[i] in AsSet(before);
    }
  }

  lemma {:induction false} IdsOfFront(names: seq<string>, known: map<string, string>, n: nat)
    requires n <= |names|
    ensures AssignIds(names, known)[..n] == AssignIds(names[..n], known)
    decreases |names| - n
  {
    hide Pick, Wanted;
    if n < |names| {
      IdsOfFront(names, known, n + 1);
      assert names[..n + 1][..n] == names[..n];
      assert AssignIds(names, known)[..n + 1][..n] == AssignIds(names, known)[..n];
    } else {
      assert names[..n] == names;
    }
  }

  /** Each identifier is the one wanted, or the first of its numbered forms that was free, found in at
      most one more try than identifiers were taken. */
  lemma EachIdIsTheFirstFree(names: seq<string>, known: map<string, string>, i: nat)
    requires i < |names|
    ensures var (ids, wanted) := (AssignIds(names, known), Wanted(names[i], known));
            var taken := AsSet(ids[..i]);
            && ids[i] !in taken
            && (wanted !in taken ==> ids[i] == wanted)
            && (wanted in taken ==>
                  exists n | 2 <= n <= |taken| + 2 :: ids[i] == Candidate(wanted, n) && AllTaken(wanted, taken, n))
  {
    hide Candidate, Wanted;
    IdsOfFront(names, known, i);
    IdsOfFront(names, known, i + 1);
    assert names[..i + 1][..i] == names[..i];
    var ids, wanted := AssignIds(names, known), Wanted(names[i], known);
    assert ids[..i + 1][i] == ids[i];
    if wanted in AsSet(ids[..i]) {
      FirstFreeIsFirst(wanted, AsSet(ids[..i]), 2);
    }
  }

  lemma {:induction false} FirstFreeIsFirst(wanted: string, taken: set<string>, n: nat)
    requires n >= 2 && AllTaken(wanted, taken, n) && n - 2 <= |taken|
    ensures exists k | n <= k <= |taken| + 2 :: FirstFree(wanted, taken, n) == Candidate(wanted, k) && AllTaken(wanted, taken, k)
    decreases |taken| + 2 - n
  {
    hide Candidate;
    if Candidate(wanted, n) in taken {
      TriesAreBounded(wanted, taken, n + 1);
      FirstFreeIsFirst(wanted, taken, n + 1);
    }
  }

  // -- every identifier is well formed ------------------------------------------------------------------------

  lemma {:induction false} LongerNumbers(m: nat, n: nat)
    requires m <= n
    ensures |Decimal(m)| <= |Decimal(n)|
    decreases n
  {
    if n >= 10 {
      LongerNumbers(m / 10, n / 10);
    }
  }

  lemma CutIs(wanted: string, k: nat)
    requires IsRuleId(wanted) && k >= 1
    ensures var c := Cut(wanted, k);
            1 <= |c| <= k && c[0] == wanted[0] && forall i | 0 <= i < |c| :: IdChar(c[i])
  {
    var front := Front(wanted, k);
    StripRightIs(front);
    var i :| 0 <= i <= |front| && StripRight(front) == front[..i];
    assert front[0] != '-';
  }

  lemma CandidateIsARuleId(wanted: string, n: nat)
    requires IsRuleId(wanted) && |Suffix(n)| < MAX_ID
    ensures IsRuleId(Candidate(wanted, n))
  {
    hide Cut;
    DecimalIs(n);
    CutIs(wanted, MAX_ID - |Suffix(n)|);
  }

  /** Every identifier given to a list short enough for its numbers to fit is well formed; documents hold
      at most 32 rules. */
  lemma IdsAreRuleIds(names: seq<string>, known: map<string, string>, i: nat)
    requires i < |names| && |Suffix(|names| + 2)| < MAX_ID
    requires forall name | name in known :: IsRuleId(known[name])
    ensures IsRuleId(AssignIds(names, known)[i])
  {
    hide Candidate, Slug, IsRuleId, Decimal;
    EachIdIsTheFirstFree(names, known, i);
    var ids, wanted := AssignIds(names, known), Wanted(names[i], known);
    SlugIsARuleId(names[i]);
    var taken := AsSet(ids[..i]);
    if wanted in taken {
      SetIsSmaller(ids[..i]);
      var n :| 2 <= n <= |taken| + 2 && ids[i] == Candidate(wanted, n) && AllTaken(wanted, taken, n);
      LongerNumbers(n, |names| + 2);
      CandidateIsARuleId(wanted, n);
    }
  }

  lemma {:induction false} SetIsSmaller(ids: seq<string>)
    ensures |AsSet(ids)| <= |ids|
    decreases ids
  {
    if ids != [] {
      var front := ids[..|ids| - 1];
      SetIsSmaller(front);
      assert AsSet(ids) == AsSet(front) + {ids[|ids| - 1]};
    }
  }

  lemma ThirtyTwoRulesFit()
    ensures |Suffix(34)| < MAX_ID
  {
  }

  /** So every identifier of a document is one: it holds at most 32 rules. */
  lemma DocumentIdsAreRuleIds(names: seq<string>, known: map<string, string>)
    requires |names| <= 32
    requires forall name | name in known :: IsRuleId(known[name])
    ensures forall i | 0 <= i < |names| :: IsRuleId(AssignIds(names, known)[i])
  {
    hide AssignIds, IsRuleId, Decimal;
    ThirtyTwoRulesFit();
    LongerNumbers(|names| + 2, 34);
    forall i | 0 <= i < |names| ensures IsRuleId(AssignIds(names, known)[i]) {
      IdsAreRuleIds(names, known, i);
    }
  }

  // -- identifiers are kept ---------------------------------------------------------------------------------------

  /** Fed back the identifiers they have, rules keep them. */
  lemma {:induction false} KnownIdsAreKept(names: seq<string>, ids: seq<string>, known: map<string, string>)
    requires |ids| == |names| && AllDifferent(ids)
    requires forall i | 0 <= i < |names| :: names[i] in known && known[names[i]] == ids[i] && ids[i] != ""
    ensures AssignIds(names, known) == ids
    decreases names
  {
    hide Slug, FirstFree;
    if names != [] {
      var n := |names| - 1;
      KnownIdsAreKept(names[..n], ids[..n], known);
      assert ids == ids[..n] + [ids[n]];
    }
  }

  function Zip(names: seq<string>, ids: seq<string>): map<string, string>
    requires |names| == |ids|
    decreases names
  {
    if names == [] then map[] else Zip(names[..|names| - 1], ids[..|ids| - 1])[names[|names| - 1] := ids[|ids| - 1]]
  }

  lemma {:induction false} ZipMaps(names: seq<string>, ids: seq<string>)
    requires |names| == |ids| && AllDifferent(names)
    ensures forall i | 0 <= i < |names| :: names[i] in Zip(names, ids) && Zip(names, ids)[names[i]] == ids[i]
    ensures forall name | name in Zip(names, ids) :: name in names
    decreases names
  {
    if names != [] {
      ZipMaps(names[..|names| - 1], ids[..|ids| - 1]);
    }
  }

  lemma IdsAreNotEmpty(names: seq<string>, known: map<string, string>, i: nat)
    requires i < |names|
    ensures AssignIds(names, known)[i] != ""
  {
    hide Slug;
    EachIdIsTheFirstFree(names, known, i);
    SlugIsARuleId(names[i]);
  }

  /** Deriving identifiers and feeding them back gives the same identifiers, for distinct names. */
  lemma DerivedIdsAreKept(names: seq<string>, known: map<string, string>)
    requires AllDifferent(names)
    ensures var ids := AssignIds(names, known); AssignIds(names, Zip(names, ids)) == ids
  {
    hide AssignIds;
    var ids := AssignIds(names, known);
    ZipMaps(names, ids);
    IdsAreDistinct(names, known);
    forall i | 0 <= i < |names| ensures ids[i] != "" {
      IdsAreNotEmpty(names, known, i);
    }
    KnownIdsAreKept(names, ids, Zip(names, ids));
  }

  predicate IsOld(name: string, known: map<string, string>) {
    name in known && known[name] != ""
  }

  /** What the identifiers are if every rule that has one keeps it, and every new one takes the first that
      is free of those in front of it. */
  function IfKept(names: seq<string>, known: map<string, string>): (ids: seq<string>)
    ensures |ids| == |names|
    decreases names
  {
    if names == [] then []
    else
      var before, name := IfKept(names[..|names| - 1], known), names[|names| - 1];
      before + [if IsOld(name, known) then known[name] else Pick(Slug(name), AsSet(before))]
  }

  /** No new rule would take what a rule behind it already has. */
  predicate NoneTaken(names: seq<string>, known: map<string, string>) {
    forall i, j | 0 <= i < j < |names| && !IsOld(names[i], known) && IsOld(names[j], known) ::
      IfKept(names, known)[i] != known[names[j]]
  }

  predicate AllKept(names: seq<string>, known: map<string, string>) {
    forall i | 0 <= i < |names| && IsOld(names[i], known) :: AssignIds(names, known)[i] == known[names[i]]
  }

  /** The rules of the document have identifiers of their own. */
  predicate OldOnesDiffer(names: seq<string>, known: map<string, string>) {
    forall i, j | 0 <= i < j < |names| && IsOld(names[i], known) && IsOld(names[j], known) ::
      known[names[i]] != known[names[j]]
  }

  lemma {:induction false} IfKeptOfFront(names: seq<string>, known: map<string, string>, n: nat)
    requires n <= |names|
    ensures IfKept(names, known)[..n] == IfKept(names[..n], known)
    decreases |names| - n
  {
    hide Pick, Slug;
    if n < |names| {
      IfKeptOfFront(names, known, n + 1);
      assert names[..n + 1][..n] == names[..n];
      assert IfKept(names, known)[..n + 1][..n] == IfKept(names, known)[..n];
    } else {
      assert names[..n] == names;
    }
  }

  lemma IfKeptIsKnown(names: seq<string>, known: map<string, string>, i: nat)
    requires i < |names| && IsOld(names[i], known)
    ensures IfKept(names, known)[i] == known[names[i]]
  {
    hide Pick, Slug;
    IfKeptOfFront(names, known, i + 1);
    assert IfKept(names, known)[..i + 1][i] == IfKept(names, known)[i];
  }

  lemma FrontIsKept(names: seq<string>, known: map<string, string>)
    requires names != [] && AllKept(names, known)
    ensures AllKept(names[..|names| - 1], known)
  {
    hide Pick, Wanted;
    var n := |names| - 1;
    IdsOfFront(names, known, n);
    assert forall i | 0 <= i < n :: AssignIds(names, known)[..n][i] == AssignIds(names, known)[i];
  }

  lemma {:induction false} KeptMeansIfKept(names: seq<string>, known: map<string, string>)
    requires AllKept(names, known)
    ensures AssignIds(names, known) == IfKept(names, known)
    decreases names
  {
    hide Pick, Slug;
    if names != [] {
      FrontIsKept(names, known);
      KeptMeansIfKept(names[..|names| - 1], known);
    }
  }

  lemma FrontHasNoneTaken(names: seq<string>, known: map<string, string>)
    requires names != [] && NoneTaken(names, known)
    ensures NoneTaken(names[..|names| - 1], known)
  {
    hide IfKept;
    var n := |names| - 1;
    IfKeptOfFront(names, known, n);
    assert forall i | 0 <= i < n :: IfKept(names, known)[..n][i] == IfKept(names, known)[i];
  }

  lemma {:induction false} NoneTakenMeansKept(names: seq<string>, known: map<string, string>)
    requires OldOnesDiffer(names, known) && NoneTaken(names, known)
    ensures AllKept(names, known)
    decreases names
  {
    hide Slug, FirstFree;
    if names != [] {
      var n := |names| - 1;
      FrontHasNoneTaken(names, known);
      NoneTakenMeansKept(names[..n], known);
      KeptMeansIfKept(names[..n], known);
      if IsOld(names[n], known) {
        LastIsFree(names, known);
      }
    }
  }

  lemma LastIsFree(names: seq<string>, known: map<string, string>)
    requires names != [] && OldOnesDiffer(names, known) && NoneTaken(names, known)
    requires IsOld(names[|names| - 1], known)
    ensures known[names[|names| - 1]] !in AsSet(IfKept(names[..|names| - 1], known))
  {
    hide IfKept;
    var n := |names| - 1;
    IfKeptOfFront(names, known, n);
    forall i | 0 <= i < n ensures IfKept(names[..n], known)[i] != known[names[n]] {
      assert IfKept(names[..n], known)[i] == IfKept(names, known)[i];
      if IsOld(names[i], known) {
        IfKeptIsKnown(names, known, i);
      }
    }
  }

  /** Exactly when every rule that has an identifier keeps it, whatever new rules are put wherever among
      them: no two have the same, and no new one, taking the first that is free in front of it, takes that
      of a rule behind it. */
  lemma KeptUnlessTaken(names: seq<string>, known: map<string, string>)
    ensures AllKept(names, known) <==> OldOnesDiffer(names, known) && NoneTaken(names, known)
    ensures AllKept(names, known) ==> AssignIds(names, known) == IfKept(names, known)
  {
    hide AssignIds, IfKept;
    if OldOnesDiffer(names, known) && NoneTaken(names, known) {
      NoneTakenMeansKept(names, known);
    }
    if AllKept(names, known) {
      KeptMeansIfKept(names, known);
      IdsAreDistinct(names, known);
    }
  }

  ghost predicate Knows(names: seq<string>, ids: seq<string>, known: map<string, string>) {
    && |names| == |ids|
    && forall i | 0 <= i < |names| :: IsOld(names[i], known) && known[names[i]] == ids[i]
  }

  lemma AllOldKept(names: seq<string>, ids: seq<string>, known: map<string, string>)
    requires Knows(names, ids, known)
    ensures IfKept(names, known) == ids
  {
    hide IfKept;
    forall i | 0 <= i < |names| ensures IfKept(names, known)[i] == ids[i] {
      IfKeptIsKnown(names, known, i);
    }
  }

  lemma OneTakes(names: seq<string>, ids: seq<string>, known: map<string, string>, name: string, k: nat)
    requires Knows(names, ids, known) && k <= |names| && !IsOld(name, known)
    ensures IfKept(names[..k] + [name] + names[k..], known)[k] == Pick(Slug(name), AsSet(ids[..k]))
  {
    hide Pick, Slug, IsOld;
    var all := names[..k] + [name] + names[k..];
    assert all[..k + 1][..k] == names[..k] && all[..k + 1][k] == name;
    AllOldKept(names[..k], ids[..k], known);
    IfKeptOfFront(all, known, k + 1);
    assert IfKept(all, known)[k] == IfKept(all, known)[..k + 1][k];
  }

  /** One new rule put in at `k`: what it takes is the first free of the identifiers in front of it, and all
      the others keep theirs exactly when that is none of those behind it. */
  lemma OneNewRule(names: seq<string>, ids: seq<string>, known: map<string, string>, name: string, k: nat)
    requires Knows(names, ids, known) && AllDifferent(ids) && k <= |names| && !IsOld(name, known)
    ensures AllKept(names[..k] + [name] + names[k..], known) <==> Pick(Slug(name), AsSet(ids[..k])) !in ids[k..]
  {
    hide IfKept, Pick, Slug, AllKept, AsSet;
    var all, taken := names[..k] + [name] + names[k..], Pick(Slug(name), AsSet(ids[..k]));
    assert forall i | 0 <= i < |all| && i != k :: IsOld(all[i], known) && known[all[i]] == ids[if i < k then i else i - 1];
    assert all[k] == name;
    KeptUnlessTaken(all, known);
    OneTakes(names, ids, known, name, k);
    if taken in ids[k..] {
      var i :| 0 <= i < |ids[k..]| && ids[k..][i] == taken;
      assert known[all[k + 1 + i]] == taken;
    } else {
      forall j | k < j < |all| ensures known[all[j]] != taken {
        assert known[all[j]] == ids[k..][j - 1 - k];
      }
    }
  }

  /** Rule by rule: one keeps the identifier it has exactly when no rule in front of it was given that. */
  lemma KeptUnlessGivenAway(names: seq<string>, known: map<string, string>, i: nat)
    requires i < |names| && IsOld(names[i], known)
    ensures AssignIds(names, known)[i] == known[names[i]] <==> known[names[i]] !in AssignIds(names, known)[..i]
  {
    hide AssignIds, Candidate;
    EachIdIsTheFirstFree(names, known, i);
  }

  lemma SlugOfDoor()
    ensures Slug("Door!") == "door"
  {
    assert Dashed("", false) == "" && Dashed("!", false) == "-" + Dashed("", true);
    assert "Door!"[1..] == "oor!" && "oor!"[1..] == "or!" && "or!"[1..] == "r!" && "r!"[1..] == "!" && "!"[1..] == "";
    assert Dashed("r!", false) == "r-" && Dashed("or!", false) == "or-" && Dashed("oor!", false) == "oor-";
    assert Dashed("Door!", false) == "door-";
    assert StripLeft("door-") == "door-" && "door-"[..4] == "door" && StripRight("door") == "door" && StripRight("door-") == "door";
    assert StripLeft("door") == "door";
  }

  /** It can be given away: a new rule placed before an old one, whose name makes the same slug. */
  lemma ANewRuleCanTakeAnId()
    ensures AssignIds(["Door!", "Door"], map["Door" := "door"]) == ["door", "door-2"]
  {
    hide Slug;
    var known := map["Door" := "door"];
    SlugOfDoor();
    assert ["Door!", "Door"][..1] == ["Door!"] && ["Door!"][..0] == [];
    assert AssignIds(["Door!"], known) == ["door"];
    assert Candidate("door", 2) == "door-2" by {
      assert Suffix(2) == "-2" && StripRight("door") == "door";
    }
    assert AsSet(["door"]) == {"door"};
    assert "door-2" != "door";
  }
}
