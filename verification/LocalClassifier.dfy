/** The deterministic keyword classifier used when no model is configured, on lower-cased text. */
module LocalClassifier {
  import opened Domain

  /**
   Which characters count as part of a word is a parameter: of it only the spaces and the letters
   and digits of the terms matter.
   */
  type WordTest = char -> bool

  ghost predicate ValidWordTest(word: WordTest) {
    && !word(' ')
    && (forall c :: 'a' <= c <= 'z' || '0' <= c <= '9' ==> word(c))
  }

  // ---------- term tables, in the order of the source ----------

  const BILLING_TERMS: seq<string> := [
    "bill", "billing", "invoice", "payment", "charged", "charge", "refund", "price", "pricing",
    "subscription", "card", "checkout"]

  const TECHNICAL_TERMS: seq<string> := [
    "api", "server", "database", "integration", "network", "timeout", "latency", "configuration",
    "install", "connection", "webhook"]

  const BUG_TERMS: seq<string> := [
    "bug", "crash", "crashes", "crashed", "exception", "stack trace", "500 error", "not working",
    "broken", "freezes", "closes instantly", "unexpected behavior", "blank screen"]

  const ACCOUNT_TERMS: seq<string> := [
    "account", "password", "login", "log in", "sign in", "locked out", "profile", "email address",
    "verification", "credentials", "permission", "access denied"]

  const CRITICAL_PHRASES: seq<string> := [
    "all customers", "production down", "completely unavailable", "security breach", "data loss"]

  const HIGH_WORDS: seq<string> := ["urgent", "blocked", "cannot", "outage"]

  const MEDIUM_WORDS: seq<string> := ["error", "failed", "problem", "issue"]

  /** The scored categories in the order that breaks ties. */
  const SCORED: seq<Category> := [Billing, Technical, Bug, Account]

  function Terms(c: Category): seq<string> {
    match c
    case Billing => BILLING_TERMS
    case Technical => TECHNICAL_TERMS
    case Bug => BUG_TERMS
    case Account => ACCOUNT_TERMS
    case General => []
  }

  // ---------- matching ----------

  predicate OccursAt(text: string, term: string, i: nat) {
    i + |term| <= |text| && text[i..i + |term|] == term
  }

  predicate WordAt(word: WordTest, text: string, i: int) {
    0 <= i < |text| && word(text[i])
  }

  /** A boundary lies between two characters of which exactly one is part of a word. */
  predicate BoundaryAt(word: WordTest, text: string, i: nat) {
    WordAt(word, text, i - 1) != WordAt(word, text, i)
  }

  predicate FoundAsWord(word: WordTest, text: string, term: string) {
    exists i: nat | i <= |text| ::
      OccursAt(text, term, i) && BoundaryAt(word, text, i) && BoundaryAt(word, text, i + |term|)
  }

  predicate Contains(text: string, phrase: string) {
    exists i: nat | i <= |text| :: OccursAt(text, phrase, i)
  }

  // ---------- scoring ----------

  function Count(word: WordTest, text: string, terms: seq<string>): nat {
    if terms == [] then 0
    else Count(word, text, terms[..|terms| - 1]) + if FoundAsWord(word, text, terms[|terms| - 1]) then 1 else 0
  }

  function Score(word: WordTest, text: string, c: Category): nat { Count(word, text, Terms(c)) }

  /** The first of the highest scores. */
  function FirstMaximum(scores: seq<nat>): (k: nat)
    requires scores != []
    ensures k < |scores|
    ensures forall i :: 0 <= i < |scores| ==> scores[i] <= scores[k]
    ensures forall i :: 0 <= i < k ==> scores[i] < scores[k]
  {
    var n := |scores| - 1;
    if n == 0 then 0
    else
      var best := FirstMaximum(scores[..n]);
      assert forall i :: 0 <= i < n ==> scores[..n][i] == scores[i];
      if scores[best] < scores[n] then n else best
  }

  function Scores(word: WordTest, text: string): seq<nat> {
    [Score(word, text, Billing), Score(word, text, Technical), Score(word, text, Bug), Score(word, text, Account)]
  }

  function CategoryOf(word: WordTest, text: string): Category {
    var scores := Scores(word, text);
    var best := FirstMaximum(scores);
    if scores[best] == 0 then General else SCORED[best]
  }

  predicate ContainsAny(text: string, phrases: seq<string>) {
    exists k | 0 <= k < |phrases| :: Contains(text, phrases[k])
  }

  function UrgencyOf(text: string): Urgency {
    if ContainsAny(text, CRITICAL_PHRASES) then Critical
    else if ContainsAny(text, HIGH_WORDS) then High
    else if ContainsAny(text, MEDIUM_WORDS) then Medium
    else Low
  }

  /** The classification of a ticket; the text is its lower-cased title and description. */
  function ClassifyLocally(word: WordTest, title: string, description: string): Classification {
    var text := title + " " + description;
    Classification(UrgencyOf(text), CategoryOf(word, text), 0.6)
  }

  // ---------- the category is the first with the highest score ----------

  /** The position of a category in the order that breaks ties; GENERAL is not scored. */
  function Position(c: Category): nat {
    match c
    case Billing => 0
    case Technical => 1
    case Bug => 2
    case Account => 3
    case General => 4
  }

  /** GENERAL exactly when no term is found; otherwise the first category with the highest score. */
  lemma CategoryIsFirstMaximum(word: WordTest, text: string)
    ensures CategoryOf(word, text) == General <==> forall c: Category :: Score(word, text, c) == 0
    ensures forall c: Category :: Score(word, text, c) <= Score(word, text, CategoryOf(word, text))
    ensures forall c: Category :: Position(c) < Position(CategoryOf(word, text)) < 4 ==>
              Score(word, text, c) < Score(word, text, CategoryOf(word, text))
  {
    var scores := Scores(word, text);
    var best := FirstMaximum(scores);
    forall c: Category
      ensures Score(word, text, c) <= scores[best]
      ensures Position(c) < best ==> Score(word, text, c) < scores[best]
    {
      if c != General {
        assert Score(word, text, c) == scores[Position(c)];
      }
    }
    assert forall k: nat :: k < 4 ==> Position(SCORED[k]) == k;
  }

  // ---------- the urgency is the highest with a phrase in the text ----------

  function UrgencyRank(u: Urgency): nat {
    match u
    case Low => 0
    case Medium => 1
    case High => 2
    case Critical => 3
  }

  /** The phrases that signal an urgency; nothing needs to signal LOW. */
  function Signals(u: Urgency): seq<string> {
    match u
    case Low => []
    case Medium => MEDIUM_WORDS
    case High => HIGH_WORDS
    case Critical => CRITICAL_PHRASES
  }

  lemma UrgencyIsHighestSignalled(text: string, u: Urgency)
    ensures ContainsAny(text, Signals(u)) ==> UrgencyRank(u) <= UrgencyRank(UrgencyOf(text))
    ensures UrgencyOf(text) == Low || ContainsAny(text, Signals(UrgencyOf(text)))
  {
  }

  // ---------- monotonicity ----------

  /** The text that surrounds an occurrence does not undo it. */
  lemma OccursInside(a: string, text: string, b: string, term: string, i: nat)
    requires OccursAt(text, term, i)
    ensures OccursAt(a + text + b, term, |a| + i)
  {
  }

  lemma ContainsAnyInside(a: string, text: string, b: string, phrases: seq<string>)
    requires ContainsAny(text, phrases)
    ensures ContainsAny(a + text + b, phrases)
  {
    var k :| 0 <= k < |phrases| && Contains(text, phrases[k]);
    var i: nat :| i <= |text| && OccursAt(text, phrases[k], i);
    OccursInside(a, text, b, phrases[k], i);
    assert Contains(a + text + b, phrases[k]);
  }

  /** Extending a text on either side never lowers its urgency. */
  lemma ExtendingKeepsUrgency(a: string, text: string, b: string)
    ensures UrgencyRank(UrgencyOf(text)) <= UrgencyRank(UrgencyOf(a + text + b))
  {
    if ContainsAny(text, CRITICAL_PHRASES) {
      ContainsAnyInside(a, text, b, CRITICAL_PHRASES);
    } else if ContainsAny(text, HIGH_WORDS) {
      ContainsAnyInside(a, text, b, HIGH_WORDS);
    } else if ContainsAny(text, MEDIUM_WORDS) {
      ContainsAnyInside(a, text, b, MEDIUM_WORDS);
    }
  }

  /** A space keeps every boundary of the text that it is joined to, at its edges too. */
  lemma FoundInJoinedText(word: WordTest, left: string, right: string, term: string)
    requires ValidWordTest(word)
    ensures FoundAsWord(word, left, term) ==> FoundAsWord(word, left + " " + right, term)
    ensures FoundAsWord(word, right, term) ==> FoundAsWord(word, left + " " + right, term)
  {
    if FoundAsWord(word, left, term) {
      FoundInLeftText(word, left, right, term);
    }
    if FoundAsWord(word, right, term) {
      FoundInRightText(word, left, right, term);
    }
  }

  lemma FoundInLeftText(word: WordTest, left: string, right: string, term: string)
    requires ValidWordTest(word) && FoundAsWord(word, left, term)
    ensures FoundAsWord(word, left + " " + right, term)
  {
    var i: nat :| i <= |left| && OccursAt(left, term, i)
                  && BoundaryAt(word, left, i) && BoundaryAt(word, left, i + |term|);
    OccursInside("", left, " " + right, term, i);
    assert "" + left + (" " + right) == left + " " + right;
    LeftBoundary(word, left, right, i);
    LeftBoundary(word, left, right, i + |term|);
  }

  lemma FoundInRightText(word: WordTest, left: string, right: string, term: string)
    requires ValidWordTest(word) && FoundAsWord(word, right, term)
    ensures FoundAsWord(word, left + " " + right, term)
  {
    var i: nat :| i <= |right| && OccursAt(right, term, i)
                  && BoundaryAt(word, right, i) && BoundaryAt(word, right, i + |term|);
    OccursInside(left + " ", right, "", term, i);
    assert left + " " + right + "" == left + " " + right;
    RightBoundary(word, left, right, i);
    RightBoundary(word, left, right, i + |term|);
    assert OccursAt(left + " " + right, term, |left| + 1 + i);
  }

  lemma LeftBoundary(word: WordTest, left: string, right: string, i: nat)
    requires ValidWordTest(word) && i <= |left|
    ensures BoundaryAt(word, left + " " + right, i) <==> BoundaryAt(word, left, i)
  {
  }

  lemma RightBoundary(word: WordTest, left: string, right: string, i: nat)
    requires ValidWordTest(word) && i <= |right|
    ensures BoundaryAt(word, left + " " + right, |left| + 1 + i) <==> BoundaryAt(word, right, i)
  {
  }

  lemma {:induction false} CountInJoinedText(word: WordTest, left: string, right: string, terms: seq<string>)
    requires ValidWordTest(word)
    ensures Count(word, left, terms) <= Count(word, left + " " + right, terms)
    ensures Count(word, right, terms) <= Count(word, left + " " + right, terms)
  {
    if terms == [] {
    } else {
      CountInJoinedText(word, left, right, terms[..|terms| - 1]);
      FoundInJoinedText(word, left, right, terms[|terms| - 1]);
    }
  }

  /** Joining title and description with a space never lowers the score of any category in either. */
  lemma JoiningKeepsScores(word: WordTest, title: string, description: string, c: Category)
    requires ValidWordTest(word)
    ensures Score(word, title, c) <= Score(word, title + " " + description, c)
    ensures Score(word, description, c) <= Score(word, title + " " + description, c)
  {
    CountInJoinedText(word, title, description, Terms(c));
  }

  /** A ticket is classified GENERAL only if neither its title nor its description would match on its own. */
  lemma GeneralMeansNothingFound(word: WordTest, title: string, description: string)
    requires ValidWordTest(word)
    requires ClassifyLocally(word, title, description).category == General
    ensures CategoryOf(word, title) == General && CategoryOf(word, description) == General
  {
    CategoryIsFirstMaximum(word, title + " " + description);
    CategoryIsFirstMaximum(word, title);
    CategoryIsFirstMaximum(word, description);
    forall c: Category { JoiningKeepsScores(word, title, description, c); }
  }

  // ---------- what is counted ----------

  lemma {:induction false} CountIsCardinality(word: WordTest, text: string, terms: seq<string>)
    ensures Count(word, text, terms) == |set k | 0 <= k < |terms| && FoundAsWord(word, text, terms[k])|
  {
    hide FoundAsWord;
    var found := set k | 0 <= k < |terms| && FoundAsWord(word, text, terms[k]);
    if terms == [] {
      assert found == {};
    } else {
      var n := |terms| - 1;
      var before := terms[..n];
      CountIsCardinality(word, text, before);
      var foundBefore := set k | 0 <= k < |before| && FoundAsWord(word, text, before[k]);
      assert found == foundBefore + if FoundAsWord(word, text, terms[n]) then {n} else {};
    }
  }

  /** The score of a category is the number of its terms found in the text. */
  lemma ScoresCountTerms(word: WordTest, text: string)
    ensures Score(word, text, Billing) == |set k | 0 <= k < |BILLING_TERMS| && FoundAsWord(word, text, BILLING_TERMS[k])|
    ensures Score(word, text, Technical) == |set k | 0 <= k < |TECHNICAL_TERMS| && FoundAsWord(word, text, TECHNICAL_TERMS[k])|
    ensures Score(word, text, Bug) == |set k | 0 <= k < |BUG_TERMS| && FoundAsWord(word, text, BUG_TERMS[k])|
    ensures Score(word, text, Account) == |set k | 0 <= k < |ACCOUNT_TERMS| && FoundAsWord(word, text, ACCOUNT_TERMS[k])|
  {
    CountIsCardinality(word, text, BILLING_TERMS);
    CountIsCardinality(word, text, TECHNICAL_TERMS);
    CountIsCardinality(word, text, BUG_TERMS);
    CountIsCardinality(word, text, ACCOUNT_TERMS);
  }

  /** A lower-case letter or a digit. */
  predicate Plain(c: char) { 'a' <= c <= 'z' || '0' <= c <= '9' }

  /** No part of a word continues the occurrence on either side. */
  ghost predicate StandsAlone(word: WordTest, text: string, term: string, i: nat) {
    && i + |term| <= |text| && text[i..i + |term|] == term
    && (i == 0 || !word(text[i - 1]))
    && (i + |term| == |text| || !word(text[i + |term|]))
  }

  /** A term that starts and ends with a letter or digit is found exactly where it stands alone. */
  lemma WholeWordIff(word: WordTest, text: string, term: string)
    requires ValidWordTest(word) && term != "" && Plain(term[0]) && Plain(term[|term| - 1])
    ensures FoundAsWord(word, text, term) <==> exists i: nat :: StandsAlone(word, text, term, i)
  {
    forall i: nat | i <= |text| && OccursAt(text, term, i)
      ensures BoundaryAt(word, text, i) && BoundaryAt(word, text, i + |term|) <==> StandsAlone(word, text, term, i)
    {
      assert text[i] == text[i..i + |term|][0] == term[0];
      assert text[i + |term| - 1] == text[i..i + |term|][|term| - 1] == term[|term| - 1];
    }
    if FoundAsWord(word, text, term) {
      var i: nat :| i <= |text| && OccursAt(text, term, i)
                    && BoundaryAt(word, text, i) && BoundaryAt(word, text, i + |term|);
      assert StandsAlone(word, text, term, i);
    }
    if i: nat :| StandsAlone(word, text, term, i) {
      assert i <= |text| && OccursAt(text, term, i);
      assert BoundaryAt(word, text, i) && BoundaryAt(word, text, i + |term|);
    }
  }

  /** Every term of every table is such a term. */
  lemma TermsAreWords(c: Category, k: nat)
    requires k < |Terms(c)|
    ensures var term := Terms(c)[k]; term != "" && Plain(term[0]) && Plain(term[|term| - 1])
  {
  }

  /** The urgency is the highest that title, description or the two joined by a space signal. */
  lemma UrgencyOfTicket(word: WordTest, title: string, description: string, u: Urgency)
    ensures var r := ClassifyLocally(word, title, description);
            && r.confidence == 0.6
            && (ContainsAny(title, Signals(u)) || ContainsAny(description, Signals(u))
                || ContainsAny(title + " " + description, Signals(u))
                ==> UrgencyRank(u) <= UrgencyRank(r.urgency))
            && (r.urgency == Low || ContainsAny(title + " " + description, Signals(r.urgency)))
  {
    var text := title + " " + description;
    UrgencyIsHighestSignalled(text, u);
    if ContainsAny(title, Signals(u)) {
      ContainsAnyInside("", title, " " + description, Signals(u));
      assert "" + title + (" " + description) == text;
    }
    if ContainsAny(description, Signals(u)) {
      ContainsAnyInside(title + " ", description, "", Signals(u));
      assert title + " " + description + "" == text;
    }
  }

  /** The category is the first with the highest score of title and description joined by a space. */
  lemma CategoryOfTicket(word: WordTest, title: string, description: string, c: Category)
    ensures var r := ClassifyLocally(word, title, description).category;
            var text := title + " " + description;
            && Score(word, text, c) <= Score(word, text, r)
            && (Position(c) < Position(r) < 4 ==> Score(word, text, c) < Score(word, text, r))
            && (r == General <==> forall other: Category :: Score(word, text, other) == 0)
  {
    CategoryIsFirstMaximum(word, title + " " + description);
  }
}
