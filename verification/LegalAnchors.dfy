/** Legal anchors: the regular-expression parser, the printed key, and the list parser for required anchors.
    Matching of named instruments by title is an arbitrary function of the text. */
module LegalAnchors {
  import opened Common

  datatype LegalAnchor = LegalAnchor(documentNumber: string, documentTitle: string, article: string, clause: string,
                                     point: string, appendix: string)

  // ---- characters ----

  predicate IsDigit(c: char) { '0' <= c <= '9' }

  predicate IsWord(c: char) {
    || 'a' <= c <= 'z' || 'A' <= c <= 'Z' || IsDigit(c) || c == '_'
    || '\U{C0}' <= c <= '\U{24F}' || '\U{1E00}' <= c <= '\U{1EFF}'
  }

  /** Lower case for ASCII and the Vietnamese letters; every other character stays. */
  function Fold(c: char): char {
    if 'A' <= c <= 'Z' || '\U{C0}' <= c <= '\U{DE}' then (c as int + 32) as char
    else if ('\U{1EA0}' <= c <= '\U{1EF9}' || '\U{100}' <= c <= '\U{137}' || '\U{168}' <= c <= '\U{169}')
            && c as int % 2 == 0
    then (c as int + 1) as char
    else if c == '\U{1A0}' || c == '\U{1AF}' then (c as int + 1) as char
    else c
  }

  function FoldAll(t: string): string { seq(|t|, i requires 0 <= i < |t| => Fold(t[i])) }

  function Upper(c: char): char {
    if 'a' <= c <= 'z' then (c as int - 32) as char else if c == 'đ' then 'Đ' else c
  }

  function UpperAll(t: string): string { seq(|t|, i requires 0 <= i < |t| => Upper(t[i])) }

  /** [a-zđ], ignoring case. */
  predicate IsLetter(c: char) { 'a' <= Fold(c) <= 'z' || Fold(c) == 'đ' }

  predicate IsRoman(c: char) { Fold(c) in "ivxlcdm" }

  predicate IsNumberTail(c: char) { IsLetter(c) || IsDigit(c) || c == '-' }

  // ---- matching at the start of a text ----

  datatype Kind = Digits | Romans | Tail

  predicate Is(kind: Kind, c: char) {
    match kind
    case Digits => IsDigit(c)
    case Romans => IsRoman(c)
    case Tail => IsNumberTail(c)
  }

  /** Length of the longest run of the given kind at the start. */
  function Run(kind: Kind, t: string): (n: nat)
    ensures n <= |t|
  {
    if t != "" && Is(kind, t[0]) then 1 + Run(kind, t[1..]) else 0
  }

  function SkipSpaces(t: string): (rest: string)
    ensures |rest| <= |t|
  {
    if t != "" && IsSpace(t[0]) then SkipSpaces(t[1..]) else t
  }

  predicate Literal(t: string, word: string) {
    |word| <= |t| && forall k :: 0 <= k < |word| ==> Fold(t[k]) == word[k]
  }

  /** A word, or several syllables with any spaces between them. */
  function MatchSyllables(t: string, syllables: seq<string>): (rest: Option<string>)
    ensures rest.Some? ==> |rest.value| <= |t|
    decreases |syllables|
  {
    if syllables == [] then Some(t)
    else if !Literal(t, syllables[0]) then None
    else
      var rest := t[|syllables[0]|..];
      MatchSyllables(if |syllables| > 1 then SkipSpaces(rest) else rest, syllables[1..])
  }

  function MatchAny(t: string, words: seq<seq<string>>): (rest: Option<string>)
    ensures rest.Some? ==> |rest.value| <= |t|
  {
    if words == [] then None
    else if MatchSyllables(t, words[0]).Some? then MatchSyllables(t, words[0])
    else MatchAny(t, words[1..])
  }

  predicate Ends(rest: string) { rest == "" || !IsWord(rest[0]) }

  datatype Pattern = Article | Clause | Point | Appendix | Document

  function Words(p: Pattern): seq<seq<string>> {
    match p
    case Article => [["điều"], ["dieu"]]
    case Clause => [["khoản"], ["khoan"]]
    case Point => [["điểm"], ["diem"]]
    case Appendix => [["phụ", "lục"], ["phu", "luc"]]
    case Document => [["bộ", "luật"], ["luật"], ["nghị", "định"], ["nghi", "dinh"], ["thông", "tư"], ["thong", "tu"],
                      ["quyết", "định"], ["quyet", "dinh"], ["nghị", "quyết"], ["nghi", "quyet"],
                      ["pháp", "lệnh"], ["phap", "lenh"]]
  }

  datatype Hit = Hit(group: string, rest: string)

  function Cut(t: string, n: nat): Hit
    requires n <= |t|
  {
    Hit(t[..n], t[n..])
  }

  /** \d+[a-zđ]? up to a word end. */
  function MatchNumber(t: string): (hit: Option<Hit>)
    ensures hit.Some? ==> |hit.value.rest| < |t|
  {
    var n := Run(Digits, t);
    if n == 0 then None
    else if n < |t| && IsLetter(t[n]) && Ends(t[n + 1..]) then Some(Cut(t, n + 1))
    else if Ends(t[n..]) then Some(Cut(t, n))
    else None
  }

  function MatchLetter(t: string): (hit: Option<Hit>)
    ensures hit.Some? ==> |hit.value.rest| < |t|
  {
    if t != "" && IsLetter(t[0]) && Ends(t[1..]) then Some(Cut(t, 1)) else None
  }

  /** [ivxlcdm]+ or \d+, up to a word end. */
  function MatchRomanOrDigits(t: string): (hit: Option<Hit>)
    ensures hit.Some? ==> |hit.value.rest| < |t|
  {
    var r, d := Run(Romans, t), Run(Digits, t);
    if r > 0 && Ends(t[r..]) then Some(Cut(t, r))
    else if d > 0 && Ends(t[d..]) then Some(Cut(t, d))
    else None
  }

  /** \d+(?:/\d{4})?/[a-z0-9đ-]+ */
  function MatchDocumentNumber(t: string): (hit: Option<Hit>)
    ensures hit.Some? ==> |hit.value.rest| < |t| && '/' in t
  {
    var n := Run(Digits, t);
    if n == 0 || n == |t| || t[n] != '/' then None
    else
      var tail := Run(Tail, t[n + 1..]);
      if n + 5 < |t| && (forall k :: n < k < n + 5 ==> IsDigit(t[k])) && t[n + 5] == '/' && Run(Tail, t[n + 6..]) > 0
      then Some(Cut(t, n + 6 + Run(Tail, t[n + 6..])))
      else if tail > 0 then Some(Cut(t, n + 1 + tail))
      else None
  }

  /** An optional "số" with spaces around it. */
  function SkipNumberSign(t: string): (rest: string)
    ensures |rest| <= |t|
  {
    var u := SkipSpaces(t);
    if Literal(u, "số") then SkipSpaces(u[2..]) else u
  }

  function Match(p: Pattern, t: string): (hit: Option<Hit>)
    ensures hit.Some? ==> |hit.value.rest| < |t|
  {
    var rest := MatchAny(t, Words(p));
    if rest.None? then None
    else
      match p
      case Appendix => MatchRomanOrDigits(SkipNumberSign(rest.value))
      case Document => MatchDocumentNumber(SkipNumberSign(rest.value))
      case _ =>
        if rest.value == "" || !IsSpace(rest.value[0]) then None
        else if p == Point then MatchLetter(SkipSpaces(rest.value))
        else MatchNumber(SkipSpaces(rest.value))
  }

  // ---- searching a text from left to right ----

  /** A match: the text from where it starts, what its group holds, and the text after it. */
  datatype Found = Found(at: string, group: string, rest: string)

  ghost predicate InOrder(found: seq<Found>) {
    forall i :: 0 <= i < |found| - 1 ==> |found[i + 1].at| <= |found[i].rest|
  }

  /** All matches, leftmost first and without overlaps.  `inWord` says whether a word character comes before. */
  function FindAll(p: Pattern, t: string, inWord: bool): (found: seq<Found>)
    ensures InOrder(found) && (found != [] ==> |found[0].at| <= |t|)
    decreases |t|
  {
    if t == "" then []
    else if !inWord && Match(p, t).Some? then
      var hit := Match(p, t).value;
      [Found(t, hit.group, hit.rest)] + FindAll(p, hit.rest, IsWord(t[|t| - |hit.rest| - 1]))
    else FindAll(p, t[1..], IsWord(t[0]))
  }

  function OnlyOne(items: seq<string>): string { if |items| == 1 then items[0] else "" }

  // ---- keys ----

  function Parts(a: LegalAnchor): seq<string> {
    [a.documentNumber, a.documentTitle, a.article, a.clause, a.point, a.appendix]
  }

  function JoinTwo(part: string, tail: string): string {
    if part == "" then tail else if tail == "" then part else part + " | " + tail
  }

  /** " | ".join of the parts that are not empty. */
  function JoinParts(parts: seq<string>): string {
    if parts == [] then "" else JoinTwo(parts[0], JoinParts(parts[1..]))
  }

  function Key(a: LegalAnchor): string { JoinParts(Parts(a)) }

  // ---- the parser ----

  /** The titles of named instruments that the parser accepts in a text. */
  type Titles = string -> seq<string>

  predicate IsNameLetter(c: char) { c == 'ậ' || c == 'ị' || c == 'ô' || c == 'ế' || c == 'á' }

  ghost predicate NoName(t: string) { forall i :: 0 <= i < |t| ==> !IsNameLetter(Fold(t[i])) }

  /** Every instrument name is spelt with one of these letters, so a text without them names none. */
  ghost predicate TitlesNeedNames(titles: Titles) { forall t :: NoName(t) ==> titles(t) == [] }

  predicate SameArticle(a: LegalAnchor, b: LegalAnchor) {
    && FoldAll(a.article) == FoldAll(b.article) && FoldAll(a.documentNumber) == FoldAll(b.documentNumber)
    && FoldAll(a.documentTitle) == FoldAll(b.documentTitle)
  }

  function FirstGroup(p: Pattern, t: string, name: string): string {
    var found := FindAll(p, t, false);
    if found == [] then "" else name + found[0].group
  }

  function ArticleAnchor(found: seq<Found>, i: nat, document: string, title: string): LegalAnchor
    requires i < |found| && InOrder(found)
  {
    var after := found[i].rest;
    var segment := if i + 1 < |found| then after[..|after| - |found[i + 1].at|] else after;
    LegalAnchor(document, title, "Điều " + found[i].group, FirstGroup(Clause, segment, "Khoản "),
                FirstGroup(Point, segment, "Điểm "), "")
  }

  function AddArticle(anchors: seq<LegalAnchor>, a: LegalAnchor): seq<LegalAnchor> {
    if exists i :: 0 <= i < |anchors| && SameArticle(anchors[i], a) then anchors else anchors + [a]
  }

  function AddAppendix(anchors: seq<LegalAnchor>, a: LegalAnchor): seq<LegalAnchor> {
    if exists i :: 0 <= i < |anchors| && FoldAll(Key(anchors[i])) == FoldAll(Key(a)) then anchors else anchors + [a]
  }

  ghost function ArticleAnchors(found: seq<Found>, n: nat, document: string, title: string): seq<LegalAnchor>
    requires n <= |found| && InOrder(found)
  {
    if n == 0 then []
    else AddArticle(ArticleAnchors(found, n - 1, document, title), ArticleAnchor(found, n - 1, document, title))
  }

  ghost function AppendixAnchors(anchors: seq<LegalAnchor>, found: seq<Found>, document: string, title: string)
    : seq<LegalAnchor>
  {
    if found == [] then anchors
    else
      var last := found[|found| - 1];
      AddAppendix(AppendixAnchors(anchors, found[..|found| - 1], document, title),
                  LegalAnchor(document, title, "", "", "", "Phụ lục " + UpperAll(last.group)))
  }

  /** What the parser returns. */
  ghost function Anchors(t: string, titles: Titles): seq<LegalAnchor> {
    var numbers := FindAll(Document, t, false);
    var document := if |numbers| == 1 then UpperAll(numbers[0].group) else "";
    var title := OnlyOne(titles(t));
    var articles := FindAll(Article, t, false);
    var anchors := AppendixAnchors(ArticleAnchors(articles, |articles|, document, title),
                                   FindAll(Appendix, t, false), document, title);
    if anchors != [] then anchors
    else if document != "" then [LegalAnchor(document, "", "", "", "", "")]
    else if title != "" then [LegalAnchor("", title, "", "", "", "")]
    else []
  }

  method ExplicitAnchors(t: string, titles: Titles) returns (anchors: seq<LegalAnchor>)
    ensures anchors == Anchors(t, titles)
  {
    hide FindAll;
    var numbers := FindAll(Document, t, false);
    var document := if |numbers| == 1 then UpperAll(numbers[0].group) else "";
    var title := OnlyOne(titles(t));
    var articles := FindAll(Article, t, false);
    anchors := [];
    for i := 0 to |articles|
      invariant anchors == ArticleAnchors(articles, i, document, title)
    {
      anchors := AddArticle(anchors, ArticleAnchor(articles, i, document, title));
    }
    ghost var byArticle := anchors;
    var appendices := FindAll(Appendix, t, false);
    for i := 0 to |appendices|
      invariant anchors == AppendixAnchors(byArticle, appendices[..i], document, title)
    {
      assert appendices[..i + 1][..i] == appendices[..i];
      anchors := AddAppendix(anchors,
                             LegalAnchor(document, title, "", "", "", "Phụ lục " + UpperAll(appendices[i].group)));
    }
    assert appendices[..|appendices|] == appendices;
    if anchors == [] && document != "" {
      anchors := [LegalAnchor(document, "", "", "", "", "")];
    } else if anchors == [] && title != "" {
      anchors := [LegalAnchor("", title, "", "", "", "")];
    }
  }

  // ---- the list parser ----

  ghost function AddNew(parsed: seq<LegalAnchor>, anchors: seq<LegalAnchor>): seq<LegalAnchor> {
    if anchors == [] then parsed
    else
      var before, last := AddNew(parsed, anchors[..|anchors| - 1]), anchors[|anchors| - 1];
      if Key(last) != "" && !(exists i :: 0 <= i < |before| && Key(before[i]) == Key(last)) then before + [last]
      else before
  }

  ghost function Parsed(raws: seq<string>, titles: Titles): seq<LegalAnchor> {
    if raws == [] then []
    else
      var before, raw := Parsed(raws[..|raws| - 1], titles), Strip(raws[|raws| - 1]);
      if raw == "" then before else AddNew(before, Anchors(raw, titles))
  }

  ghost function Invalid(raws: seq<string>, titles: Titles): seq<string> {
    if raws == [] then []
    else
      var raw := Strip(raws[|raws| - 1]);
      Invalid(raws[..|raws| - 1], titles) + if raw == "" || Anchors(raw, titles) == [] then [raw] else []
  }

  method ParseRequiredAnchors(raws: seq<string>, titles: Titles)
    returns (parsed: seq<LegalAnchor>, invalid: seq<string>)
    ensures parsed == Parsed(raws, titles) && invalid == Invalid(raws, titles)
  {
    hide Anchors, Key;
    parsed, invalid := [], [];
    var seen: set<string> := {};
    for r := 0 to |raws|
      invariant parsed == Parsed(raws[..r], titles) && invalid == Invalid(raws[..r], titles)
      invariant forall k :: k in seen <==> exists i :: 0 <= i < |parsed| && Key(parsed[i]) == k
    {
      assert raws[..r + 1][..r] == raws[..r];
      var raw := Strip(raws[r]);
      if raw == "" {
        invalid := invalid + [raw];
      } else {
        var anchors := ExplicitAnchors(raw, titles);
        if anchors == [] {
          invalid := invalid + [raw];
        }
        ghost var before := parsed;
        for n := 0 to |anchors|
          invariant parsed == AddNew(before, anchors[..n])
          invariant forall k :: k in seen <==> exists i :: 0 <= i < |parsed| && Key(parsed[i]) == k
        {
          assert anchors[..n + 1][..n] == anchors[..n];
          var key := Key(anchors[n]);
          if key != "" && key !in seen {
            ghost var was := parsed;
            parsed := parsed + [anchors[n]];
            seen := seen + {key};
            assert parsed[|was|] == anchors[n] && forall i :: 0 <= i < |was| ==> parsed[i] == was[i];
          }
        }
        assert anchors[..|anchors|] == anchors;
      }
    }
    assert raws[..|raws|] == raws;
  }

  // ---- canonical anchors ----

  predicate IsNumber(num: string) {
    var n := Run(Digits, num);
    n > 0 && (n == |num| || (n + 1 == |num| && IsLetter(num[n])))
  }

  predicate IsAppendixNumber(g: string) {
    g != "" && ((Run(Romans, g) == |g| && UpperAll(g) == g) || Run(Digits, g) == |g|)
  }

  /** The shapes that the parser itself produces; every field may be absent. */
  predicate Canonical(a: LegalAnchor) {
    && a.documentTitle == ""
    && (a.article == "" || ("Điều " <= a.article && IsNumber(a.article[5..])))
    && (a.clause == "" || ("Khoản " <= a.clause && IsNumber(a.clause[6..])))
    && (a.point == "" || ("Điểm " <= a.point && |a.point| == 6 && IsLetter(a.point[5])))
    && (a.appendix == "" || ("Phụ lục " <= a.appendix && IsAppendixNumber(a.appendix[8..])))
  }

  /** An article, with an optional clause and point, or an appendix alone. */
  predicate Addressable(a: LegalAnchor) {
    || (a.article != "" && a.appendix == "")
    || (a.article == "" && a.clause == "" && a.point == "" && a.appendix != "")
  }

  function Rest(part: string): string { if part == "" then "" else " | " + part }

  // ---- where a match can start ----

  /** Characters that no pattern begins with. */
  predicate Separates(c: char) { c == ' ' || c == '|' || IsDigit(c) }

  /** The first three letters of the words of a pattern. */
  predicate Triple(p: Pattern, a: char, b: char, c: char) {
    match p
    case Article => (a == 'đ' && b == 'i' && c == 'ề') || (a == 'd' && b == 'i' && c == 'e')
    case Clause => a == 'k' && b == 'h' && c == 'o'
    case Point => (a == 'đ' && b == 'i' && c == 'ể') || (a == 'd' && b == 'i' && c == 'e')
    case Appendix => a == 'p' && b == 'h' && (c == 'ụ' || c == 'u')
    case Document => true
  }

  predicate StartsAt(p: Pattern, t: string, i: nat) {
    i + 2 < |t| && Triple(p, Fold(t[i]), Fold(t[i + 1]), Fold(t[i + 2]))
  }

  ghost predicate NoStart(p: Pattern, t: string) { forall i: nat :: !StartsAt(p, t, i) }

  lemma MatchNeedsStart(p: Pattern, t: string)
    requires p != Document && Match(p, t).Some?
    ensures StartsAt(p, t, 0)
  {
    hide Fold, MatchAny, MatchSyllables, Literal;
    match p
    case Article => TwoWords(t, ["điều"], ["dieu"]);
    case Clause => TwoWords(t, ["khoản"], ["khoan"]);
    case Point => TwoWords(t, ["điểm"], ["diem"]);
    case Appendix => TwoWords(t, ["phụ", "lục"], ["phu", "luc"]);
  }

  lemma TwoWords(t: string, u: seq<string>, v: seq<string>)
    requires u != [] && v != [] && |u[0]| >= 3 && |v[0]| >= 3
    requires MatchAny(t, [u, v]).Some?
    ensures |t| >= 3
    ensures (Fold(t[0]) == u[0][0] && Fold(t[1]) == u[0][1] && Fold(t[2]) == u[0][2])
            || (Fold(t[0]) == v[0][0] && Fold(t[1]) == v[0][1] && Fold(t[2]) == v[0][2])
  {
    hide Fold;
    assert [u, v][1..] == [v] && [v][1..] == [];
    assert MatchAny(t, []).None?;
    assert MatchAny(t, [v]).Some? ==> MatchSyllables(t, v).Some?;
    assert MatchSyllables(t, u).Some? || MatchSyllables(t, v).Some?;
    assert Literal(t, u[0]) || Literal(t, v[0]);
  }

  lemma {:induction false} NothingFound(p: Pattern, t: string, inWord: bool)
    requires p != Document && NoStart(p, t)
    ensures FindAll(p, t, inWord) == []
    decreases |t|
  {
    if t != "" {
      assert !StartsAt(p, t, 0);
      if Match(p, t).Some? {
        MatchNeedsStart(p, t);
      }
      TailNoStart(p, t);
      NothingFound(p, t[1..], IsWord(t[0]));
    }
  }

  lemma TailNoStart(p: Pattern, t: string)
    requires NoStart(p, t) && t != ""
    ensures NoStart(p, t[1..])
  {
    forall i: nat ensures !StartsAt(p, t[1..], i) {
      assert !StartsAt(p, t, i + 1);
    }
  }

  /** Text that ends in a space and starts no match can be skipped. */
  lemma {:induction false} SkipText(p: Pattern, x: string, y: string, inWord: bool)
    requires p != Document && x != "" && NoStart(p, x) && x[|x| - 1] == ' '
    ensures FindAll(p, x + y, inWord) == FindAll(p, y, false)
    decreases |x|
  {
    hide Triple, Match;
    var t := x + y;
    assert t[1..] == x[1..] + y;
    if Match(p, t).Some? {
      MatchNeedsStart(p, t);
      assert !StartsAt(p, x, 0);
      SeparatorsDoNotStart(p, t, |x| - 1);
    }
    if |x| > 1 {
      TailNoStart(p, x);
      SkipText(p, x[1..], y, IsWord(x[0]));
    } else {
      assert x[1..] + y == y;
    }
  }

  lemma SeparatorsDoNotStart(p: Pattern, t: string, i: nat)
    requires p != Document && i < 3 && i < |t| && Separates(t[i])
    ensures !StartsAt(p, t, 0)
  {
  }

  /** Joining at a separator starts no match that the parts do not start. */
  lemma JoinNoStart(p: Pattern, x: string, y: string)
    requires p != Document && NoStart(p, x) && NoStart(p, y)
    requires x == "" || y == "" || Separates(y[0]) || Separates(x[|x| - 1])
    ensures NoStart(p, x + y)
  {
    forall i: nat ensures !StartsAt(p, x + y, i) {
      assert !StartsAt(p, x, i);
      if i >= |x| {
        assert !StartsAt(p, y, i - |x|);
      }
    }
  }

  lemma {:induction false} RunChars(kind: Kind, t: string)
    ensures forall i :: 0 <= i < Run(kind, t) ==> Is(kind, t[i])
    ensures Run(kind, t) < |t| ==> !Is(kind, t[Run(kind, t)])
  {
    if t != "" && Is(kind, t[0]) {
      RunChars(kind, t[1..]);
    }
  }

  lemma NumberNoStart(p: Pattern, num: string)
    requires p != Document && IsNumber(num)
    ensures NoStart(p, num)
  {
    RunChars(Digits, num);
  }

  lemma LabelledNoStart(p: Pattern, name: string, value: string)
    requires p != Document && name in {"Điều ", "Khoản ", "Điểm ", "Phụ lục "}
    requires (name == "Điều " ==> p != Article) && (name == "Khoản " ==> p != Clause)
    requires (name == "Điểm " ==> p != Point) && (name == "Phụ lục " ==> p != Appendix)
    requires NoStart(p, value)
    ensures NoStart(p, name + value) && NoStart(p, Rest(name + value))
  {
    hide NoStart;
    NameNoStart(p, name);
    NameNoStart(p, " | ");
    JoinNoStart(p, name, value);
    JoinNoStart(p, " | ", name + value);
  }

  lemma NameNoStart(p: Pattern, name: string)
    requires p != Document && name in {"Điều ", "Khoản ", "Điểm ", "Phụ lục ", " | "}
    requires (name == "Điều " ==> p != Article) && (name == "Khoản " ==> p != Clause)
    requires (name == "Điểm " ==> p != Point) && (name == "Phụ lục " ==> p != Appendix)
    ensures NoStart(p, name)
  {
    NamesFold();
    assert Fold(' ') == ' ' && Fold('|') == '|';
    hide Fold;
    assert FoldAll("Phụ lục ") == FoldAll("Phụ") + [Fold(' ')] + FoldAll("lục") + [Fold(' ')];
    assert FoldAll("Điều ") == FoldAll("Điều") + [Fold(' ')];
    assert FoldAll("Khoản ") == FoldAll("Khoản") + [Fold(' ')];
    assert FoldAll("Điểm ") == FoldAll("Điểm") + [Fold(' ')];
    forall i: nat ensures !StartsAt(p, name, i) {
      if i + 2 < |name| {
        assert Fold(name[i]) == FoldAll(name)[i] && Fold(name[i + 1]) == FoldAll(name)[i + 1];
        assert Fold(name[i + 2]) == FoldAll(name)[i + 2];
      }
    }
  }

  lemma RomanNoStart(p: Pattern, g: string)
    requires p != Document && IsAppendixNumber(g)
    ensures NoStart(p, g)
  {
    RunChars(Romans, g);
    RunChars(Digits, g);
    forall i: nat ensures !StartsAt(p, g, i) {
      if i + 2 < |g| {
        NotAStart(p, g[i], g[i + 1], g[i + 2]);
      }
    }
  }

  lemma NotAStart(p: Pattern, a: char, b: char, c: char)
    requires p != Document && ((IsRoman(a) && IsRoman(b) && IsRoman(c)) || IsDigit(a))
    ensures !Triple(p, Fold(a), Fold(b), Fold(c))
  {
  }

  /** No part of a canonical key starts a match of another part's pattern. */
  lemma PartsNoStart(a: LegalAnchor, p: Pattern)
    requires Canonical(a) && p != Document
    ensures p != Article ==> NoStart(p, a.article)
    ensures p != Clause ==> NoStart(p, a.clause) && NoStart(p, Rest(a.clause))
    ensures p != Point ==> NoStart(p, a.point) && NoStart(p, Rest(a.point))
    ensures p != Appendix ==> NoStart(p, a.appendix) && NoStart(p, Rest(a.appendix))
  {
    assert NoStart(p, "");
    hide NoStart;
    if a.article != "" && p != Article {
      NumberNoStart(p, a.article[5..]);
      assert a.article == "Điều " + a.article[5..];
      LabelledNoStart(p, "Điều ", a.article[5..]);
    }
    if a.clause != "" && p != Clause {
      NumberNoStart(p, a.clause[6..]);
      assert a.clause == "Khoản " + a.clause[6..];
      LabelledNoStart(p, "Khoản ", a.clause[6..]);
    }
    if a.point != "" && p != Point {
      ShortNoStart(p, a.point[5..]);
      assert a.point == "Điểm " + a.point[5..];
      LabelledNoStart(p, "Điểm ", a.point[5..]);
    }
    if a.appendix != "" && p != Appendix {
      RomanNoStart(p, a.appendix[8..]);
      assert a.appendix == "Phụ lục " + a.appendix[8..];
      LabelledNoStart(p, "Phụ lục ", a.appendix[8..]);
    }
  }

  lemma ShortNoStart(p: Pattern, t: string)
    requires |t| < 3
    ensures NoStart(p, t)
  {
  }

  // ---- matches at the head of a part ----

  /** What may follow a part inside a key. */
  predicate Closed(rest: string) { rest == "" || rest[0] == ' ' }

  lemma {:induction false} RunOfJoin(kind: Kind, x: string, y: string)
    requires Run(kind, x) < |x| || y == "" || !Is(kind, y[0])
    ensures Run(kind, x + y) == Run(kind, x)
  {
    if x == "" {
      assert x + y == y;
    } else if Is(kind, x[0]) {
      assert (x + y)[1..] == x[1..] + y;
      RunOfJoin(kind, x[1..], y);
    }
  }

  lemma NumberMatches(num: string, rest: string)
    requires IsNumber(num) && Closed(rest)
    ensures MatchNumber(num + rest) == Some(Hit(num, rest))
    ensures !IsSpace(num[0])
  {
    RunChars(Digits, num);
    RunOfJoin(Digits, num, rest);
    var t, n := num + rest, Run(Digits, num);
    assert t[..|num|] == num && t[|num|..] == rest;
    if n == |num| {
      assert n < |t| ==> t[n] == ' ';
    } else {
      assert t[n] == num[n] && t[n + 1..] == rest;
    }
  }

  lemma SkipOneSpace(t: string)
    requires t != "" && !IsSpace(t[0])
    ensures SkipSpaces(" " + t) == t
  {
    assert (" " + t)[1..] == t;
  }

  lemma NamesFold()
    ensures FoldAll("Điều") == "điều" && FoldAll("Khoản") == "khoản" && FoldAll("Điểm") == "điểm"
    ensures FoldAll("Phụ") == "phụ" && FoldAll("lục") == "lục"
  {
  }

  lemma WordMatches(name: string, word: string, rest: string)
    requires FoldAll(name) == word
    ensures Literal(name + rest, word) && (name + rest)[|word|..] == rest
    ensures MatchSyllables(name + rest, [word]) == Some(rest)
  {
    hide Fold;
    assert forall k :: 0 <= k < |word| ==> (name + rest)[k] == name[k] && Fold(name[k]) == FoldAll(name)[k];
    assert [word][1..] == [];
  }

  lemma ArticleHead(article: string, rest: string)
    requires "Điều " <= article && IsNumber(article[5..]) && Closed(rest)
    ensures Match(Article, article + rest) == Some(Hit(article[5..], rest))
  {
    hide Fold, MatchSyllables, MatchNumber, IsNumber;
    NamesFold();
    var num := article[5..];
    NumberMatches(num, rest);
    assert article + rest == "Điều" + (" " + (num + rest));
    WordMatches("Điều", "điều", " " + (num + rest));
    SkipOneSpace(num + rest);
  }

  lemma ClauseHead(clause: string, rest: string)
    requires "Khoản " <= clause && IsNumber(clause[6..]) && Closed(rest)
    ensures Match(Clause, clause + rest) == Some(Hit(clause[6..], rest))
  {
    hide Fold, MatchSyllables, MatchNumber, IsNumber;
    NamesFold();
    var num := clause[6..];
    NumberMatches(num, rest);
    assert clause + rest == "Khoản" + (" " + (num + rest));
    WordMatches("Khoản", "khoản", " " + (num + rest));
    SkipOneSpace(num + rest);
  }

  lemma PointHead(point: string, rest: string)
    requires "Điểm " <= point && |point| == 6 && IsLetter(point[5]) && Closed(rest)
    ensures Match(Point, point + rest) == Some(Hit(point[5..], rest))
  {
    var letter := point[5..];
    assert !IsSpace(letter[0]);
    hide Fold, MatchSyllables, IsLetter;
    NamesFold();
    assert (letter + rest)[1..] == rest && (letter + rest)[..1] == letter;
    assert point + rest == "Điểm" + (" " + (letter + rest));
    WordMatches("Điểm", "điểm", " " + (letter + rest));
    SkipOneSpace(letter + rest);
  }

  lemma RomanIsNoSpace(c: char)
    requires IsRoman(c) || IsDigit(c)
    ensures !IsSpace(c) && Fold(c) != 's'
  {
  }

  lemma AppendixHead(appendix: string)
    requires "Phụ lục " <= appendix && IsAppendixNumber(appendix[8..])
    ensures Match(Appendix, appendix) == Some(Hit(appendix[8..], ""))
  {
    hide MatchSyllables, SkipNumberSign, MatchRomanOrDigits, Run, IsAppendixNumber;
    var g := appendix[8..];
    AppendixWords(g);
    AppendixGroup(g);
    assert appendix == "Phụ" + (" " + ("lục" + (" " + g)));
  }

  lemma AppendixGroup(g: string)
    requires IsAppendixNumber(g)
    ensures SkipNumberSign(" " + g) == g && MatchRomanOrDigits(g) == Some(Hit(g, ""))
  {
    AppendixRuns(g);
    assert g[..|g|] == g && g[|g|..] == "";
    SkipOneSpace(g);
    hide Fold, IsRoman, Run, SkipSpaces;
  }

  lemma AppendixRuns(g: string)
    requires IsAppendixNumber(g)
    ensures Run(Romans, g) == |g| || (Run(Romans, g) == 0 && Run(Digits, g) == |g|)
    ensures !IsSpace(g[0]) && Fold(g[0]) != 's'
  {
    RunChars(Romans, g);
    RunChars(Digits, g);
    hide Run, UpperAll;
    RomanIsNoSpace(g[0]);
    if IsDigit(g[0]) {
      assert !IsRoman(g[0]);
    }
  }

  lemma AppendixWords(g: string)
    ensures MatchSyllables("Phụ" + (" " + ("lục" + (" " + g))), ["phụ", "lục"]) == Some(" " + g)
  {
    hide Fold;
    NamesFold();
    var inner := "lục" + (" " + g);
    WordMatches("lục", "lục", " " + g);
    WordMatches("Phụ", "phụ", " " + inner);
    assert !IsSpace(inner[0]);
    SkipOneSpace(inner);
    assert ["phụ", "lục"][1..] == ["lục"];
  }

  // ---- no document in a key without document number ----

  predicate Clean(c: char) { c != '/' && !IsNameLetter(Fold(c)) }

  ghost predicate AllClean(t: string) { forall i :: 0 <= i < |t| ==> Clean(t[i]) }

  lemma {:induction false} NoDocument(t: string, inWord: bool)
    requires '/' !in t
    ensures FindAll(Document, t, inWord) == []
    decreases |t|
  {
    if t != "" {
      if Match(Document, t).Some? {
        DocumentNeedsSlash(t);
      }
      NoDocument(t[1..], IsWord(t[0]));
    }
  }

  lemma DocumentNeedsSlash(t: string)
    requires Match(Document, t).Some?
    ensures '/' in t
  {
    var rest := MatchAny(t, Words(Document)).value;
    AnySuffix(t, Words(Document));
    SignSuffix(rest);
    assert '/' in SkipNumberSign(rest);
  }

  ghost predicate Suffix(s: string, t: string) { |s| <= |t| && t[|t| - |s|..] == s }

  lemma {:induction false} SpacesSuffix(t: string)
    ensures Suffix(SkipSpaces(t), t)
  {
    if t != "" && IsSpace(t[0]) {
      SpacesSuffix(t[1..]);
      var s := SkipSpaces(t[1..]);
      assert t[|t| - |s|..] == t[1..][|t| - 1 - |s|..];
    }
  }

  lemma SuffixTrans(a: string, b: string, c: string)
    requires Suffix(a, b) && Suffix(b, c)
    ensures Suffix(a, c)
  {
    assert c[|c| - |a|..] == c[|c| - |b|..][|b| - |a|..];
  }

  lemma SignSuffix(t: string)
    ensures Suffix(SkipNumberSign(t), t)
  {
    var u := SkipSpaces(t);
    SpacesSuffix(t);
    if Literal(u, "số") {
      SpacesSuffix(u[2..]);
      assert Suffix(u[2..], u);
      SuffixTrans(SkipSpaces(u[2..]), u[2..], u);
      SuffixTrans(SkipSpaces(u[2..]), u, t);
    }
  }

  lemma {:induction false} SyllablesSuffix(t: string, syllables: seq<string>)
    requires MatchSyllables(t, syllables).Some?
    ensures Suffix(MatchSyllables(t, syllables).value, t)
    decreases |syllables|
  {
    if syllables != [] {
      var rest := t[|syllables[0]|..];
      assert Suffix(rest, t);
      SpacesSuffix(rest);
      var next := if |syllables| > 1 then SkipSpaces(rest) else rest;
      SyllablesSuffix(next, syllables[1..]);
      SuffixTrans(next, rest, t);
      SuffixTrans(MatchSyllables(t, syllables).value, next, t);
    }
  }

  lemma {:induction false} AnySuffix(t: string, words: seq<seq<string>>)
    requires MatchAny(t, words).Some?
    ensures Suffix(MatchAny(t, words).value, t)
  {
    if MatchSyllables(t, words[0]).Some? {
      SyllablesSuffix(t, words[0]);
    } else {
      AnySuffix(t, words[1..]);
    }
  }

  lemma LetterClean(c: char)
    requires IsLetter(c) || IsDigit(c) || IsRoman(c)
    ensures Clean(c)
  {
  }

  lemma NumberClean(num: string)
    requires IsNumber(num) || IsAppendixNumber(num)
    ensures AllClean(num)
  {
    RunChars(Digits, num);
    RunChars(Romans, num);
    forall i | 0 <= i < |num| ensures Clean(num[i]) {
      LetterClean(num[i]);
    }
  }

  lemma LabelledClean(name: string, value: string)
    requires name in {"Điều ", "Khoản ", "Điểm ", "Phụ lục "} && AllClean(value)
    ensures AllClean(name + value)
  {
    assert AllClean(name);
  }

  lemma PartsClean(a: LegalAnchor)
    requires Canonical(a)
    ensures AllClean(a.article) && AllClean(a.clause) && AllClean(a.point) && AllClean(a.appendix)
  {
    assert AllClean("");
    hide AllClean;
    if a.article != "" {
      NumberClean(a.article[5..]);
      assert a.article == "Điều " + a.article[5..];
      LabelledClean("Điều ", a.article[5..]);
    }
    if a.clause != "" {
      NumberClean(a.clause[6..]);
      assert a.clause == "Khoản " + a.clause[6..];
      LabelledClean("Khoản ", a.clause[6..]);
    }
    if a.point != "" {
      LetterAllClean(a.point[5..]);
      assert a.point == "Điểm " + a.point[5..];
      LabelledClean("Điểm ", a.point[5..]);
    }
    if a.appendix != "" {
      NumberClean(a.appendix[8..]);
      assert a.appendix == "Phụ lục " + a.appendix[8..];
      LabelledClean("Phụ lục ", a.appendix[8..]);
    }
  }

  lemma LetterAllClean(t: string)
    requires |t| == 1 && IsLetter(t[0])
    ensures AllClean(t)
  {
    LetterClean(t[0]);
  }

  // ---- the key of a canonical anchor, part by part ----

  ghost function RestAll(parts: seq<string>): string {
    if parts == [] then "" else Rest(parts[0]) + RestAll(parts[1..])
  }

  lemma JoinStep(part: string, tail: string, rests: string)
    requires rests == Rest(tail)
    ensures Rest(part) + rests == Rest(JoinTwo(part, tail))
    ensures part != "" ==> JoinTwo(part, tail) == part + rests
  {
    if part != "" && tail != "" {
      assert part + " | " + tail == part + (" | " + tail);
      assert " | " + (part + " | " + tail) == " | " + part + (" | " + tail);
    } else if part != "" {
      assert part + "" == part && " | " + part + "" == " | " + part;
    } else {
      assert "" + rests == rests;
    }
  }

  lemma {:induction false} JoinIsRests(parts: seq<string>)
    ensures RestAll(parts) == Rest(JoinParts(parts))
    ensures parts != [] && parts[0] != "" ==> JoinParts(parts) == parts[0] + RestAll(parts[1..])
    ensures parts != [] && parts[0] == "" ==> JoinParts(parts) == JoinParts(parts[1..])
  {
    if parts != [] {
      JoinIsRests(parts[1..]);
      JoinStep(parts[0], JoinParts(parts[1..]), RestAll(parts[1..]));
    }
  }

  /** What follows the article, the clause and the point in a key. */
  ghost function AfterPoint(a: LegalAnchor): string { Rest(a.appendix) }
  ghost function AfterClause(a: LegalAnchor): string { Rest(a.point) + AfterPoint(a) }
  ghost function AfterArticle(a: LegalAnchor): string { Rest(a.clause) + AfterClause(a) }

  lemma KeyShape(a: LegalAnchor)
    requires a.documentTitle == ""
    ensures a.documentNumber == "" && a.article != "" ==> Key(a) == a.article + AfterArticle(a)
    ensures a.documentNumber == "" && a.article == "" ==> Rest(Key(a)) == AfterArticle(a)
    ensures a.documentNumber != "" ==> Key(a) == a.documentNumber + (Rest(a.article) + AfterArticle(a))
  {
    hide JoinParts, RestAll;
    var parts := Parts(a);
    JoinIsRests(parts);
    JoinIsRests(parts[1..]);
    JoinIsRests(parts[2..]);
    JoinIsRests(parts[3..]);
    assert parts[1..][1..] == parts[2..] && parts[2..][1..] == parts[3..];
    RestsUnfold(a);
  }

  lemma RestsUnfold(a: LegalAnchor)
    requires a.documentTitle == ""
    ensures RestAll(Parts(a)[3..]) == AfterArticle(a)
    ensures RestAll(Parts(a)[1..]) == Rest(a.article) + AfterArticle(a)
  {
    var parts := Parts(a);
    assert parts[1..][1..] == parts[2..] && parts[2..][1..] == parts[3..] && parts[3..][1..] == parts[4..];
    assert parts[4..][1..] == parts[5..] && parts[5..][1..] == [];
    assert RestAll(parts[5..]) == AfterPoint(a) + "" == AfterPoint(a);
    assert RestAll(parts[4..]) == AfterClause(a);
    assert RestAll(parts[3..]) == AfterArticle(a);
    assert RestAll(parts[2..]) == Rest(a.article) + AfterArticle(a);
    assert RestAll(parts[1..]) == "" + RestAll(parts[2..]);
  }

  lemma {:induction false} TailsNoStart(a: LegalAnchor, p: Pattern)
    requires Canonical(a) && p != Document
    ensures p != Appendix ==> NoStart(p, AfterPoint(a))
    ensures p != Appendix && p != Point ==> NoStart(p, AfterClause(a))
    ensures p == Article ==> NoStart(p, AfterArticle(a))
    ensures Closed(AfterPoint(a)) && Closed(AfterClause(a)) && Closed(AfterArticle(a))
  {
    hide NoStart, Canonical;
    PartsNoStart(a, p);
    if p != Appendix && p != Point {
      JoinNoStart(p, Rest(a.point), AfterPoint(a));
    }
    if p == Article {
      JoinNoStart(p, Rest(a.clause), AfterClause(a));
    }
  }

  lemma ArticleIsFound(a: LegalAnchor)
    requires Canonical(a) && a.article != ""
    ensures FindAll(Article, a.article + AfterArticle(a), false) ==
            [Found(a.article + AfterArticle(a), a.article[5..], AfterArticle(a))]
  {
    hide Match, NoStart;
    TailsNoStart(a, Article);
    ArticleHead(a.article, AfterArticle(a));
    var t := a.article + AfterArticle(a);
    NothingFound(Article, AfterArticle(a), IsWord(t[|t| - |AfterArticle(a)| - 1]));
  }

  lemma HeadIsFirst(p: Pattern, t: string, hit: Hit)
    requires Match(p, t) == Some(hit)
    ensures FindAll(p, t, false) != [] && FindAll(p, t, false)[0].group == hit.group
  {
  }

  lemma ClauseIsFound(a: LegalAnchor)
    requires Canonical(a)
    ensures FirstGroup(Clause, AfterArticle(a), "Khoản ") == a.clause
  {
    hide Match, NoStart, FindAll, Run, IsLetter;
    TailsNoStart(a, Clause);
    if a.clause == "" {
      assert AfterArticle(a) == AfterClause(a);
      NothingFound(Clause, AfterClause(a), false);
    } else {
      ClauseHead(a.clause, AfterClause(a));
      HeadIsFirst(Clause, a.clause + AfterClause(a), Hit(a.clause[6..], AfterClause(a)));
      assert AfterArticle(a) == " | " + (a.clause + AfterClause(a));
      NameNoStart(Clause, " | ");
      SkipText(Clause, " | ", a.clause + AfterClause(a), false);
      assert a.clause == "Khoản " + a.clause[6..];
    }
  }

  lemma PointIsAbsent(a: LegalAnchor)
    requires Canonical(a) && a.point == ""
    ensures FirstGroup(Point, AfterArticle(a), "Điểm ") == ""
  {
    hide Match, NoStart, FindAll, Run, IsLetter;
    TailsNoStart(a, Point);
    PartsNoStart(a, Point);
    JoinNoStart(Point, Rest(a.clause), AfterPoint(a));
    assert AfterArticle(a) == Rest(a.clause) + AfterPoint(a);
    NothingFound(Point, AfterArticle(a), false);
  }

  lemma PointIsFound(a: LegalAnchor)
    requires Canonical(a)
    ensures FirstGroup(Point, AfterArticle(a), "Điểm ") == a.point
  {
    hide Match, NoStart, FindAll, Run, IsLetter;
    if a.point == "" {
      PointIsAbsent(a);
    } else {
      PartsNoStart(a, Point);
      PointHead(a.point, AfterPoint(a));
      HeadIsFirst(Point, a.point + AfterPoint(a), Hit(a.point[5..], AfterPoint(a)));
      NameNoStart(Point, " | ");
      JoinNoStart(Point, Rest(a.clause), " | ");
      var skipped := Rest(a.clause) + " | ";
      assert AfterArticle(a) == skipped + (a.point + AfterPoint(a));
      SkipText(Point, skipped, a.point + AfterPoint(a), false);
      assert a.point == "Điểm " + a.point[5..];
    }
  }

  lemma NoInstrument(a: LegalAnchor, titles: Titles)
    requires Canonical(a) && a.documentNumber == "" && TitlesNeedNames(titles)
    ensures FindAll(Document, Key(a), false) == [] && titles(Key(a)) == []
  {
    hide Canonical, FindAll, JoinParts, AllClean;
    PartsClean(a);
    TitleAbsent(a);
    KeyShape(a);
    RestClean(a.clause);
    RestClean(a.point);
    RestClean(a.appendix);
    CleanJoin(Rest(a.point), AfterPoint(a));
    CleanJoin(Rest(a.clause), AfterClause(a));
    CleanJoin(a.article, AfterArticle(a));
    CleanRest(Key(a));
    CleanKey(Key(a), titles);
  }

  lemma CleanJoin(x: string, y: string)
    requires AllClean(x) && AllClean(y)
    ensures AllClean(x + y)
  {
  }

  lemma CleanRest(key: string)
    ensures AllClean(Rest(key)) ==> AllClean(key)
  {
    if AllClean(Rest(key)) && key != "" {
      forall i | 0 <= i < |key| ensures Clean(key[i]) {
        assert Rest(key)[i + 3] == key[i];
      }
    }
  }

  lemma {:induction false} CleanKey(key: string, titles: Titles)
    requires AllClean(key) && TitlesNeedNames(titles)
    ensures FindAll(Document, key, false) == [] && titles(key) == []
  {
    hide FindAll;
    CleanNoName(key);
    NoDocument(key, false);
  }

  lemma RestClean(part: string)
    requires AllClean(part)
    ensures AllClean(Rest(part))
  {
  }

  // ---- which canonical anchors round-trip ----

  /** With an article the first anchor is the article with its clause and point. */
  lemma {:induction false} FirstAnchor(a: LegalAnchor, titles: Titles)
    requires Canonical(a) && a.documentNumber == "" && a.article != "" && TitlesNeedNames(titles)
    ensures var anchors := Anchors(Key(a), titles);
            && anchors != [] && anchors[0] == a.(appendix := "")
            && (a.appendix == "" ==> anchors == [a])
  {
    hide FindAll, JoinParts, Canonical, AfterArticle, ArticleAnchor, NoStart;
    TitleAbsent(a);
    NoInstrument(a, titles);
    KeyShape(a);
    ArticleValue(a);
    var found := FindAll(Article, Key(a), false);
    OneArticle(found);
    AppendixKeepsFirst([a.(appendix := "")], FindAll(Appendix, Key(a), false), "", "");
    if a.appendix == "" {
      KeyWithoutAppendix(a);
      NothingFound(Appendix, Key(a), false);
    }
  }

  lemma {:induction false} ArticleValue(a: LegalAnchor)
    requires Canonical(a) && a.documentNumber == "" && a.article != ""
    ensures var found := FindAll(Article, a.article + AfterArticle(a), false);
            |found| == 1 && ArticleAnchor(found, 0, "", "") == a.(appendix := "")
  {
    hide FindAll, AfterArticle, FirstGroup;
    ArticleIsFound(a);
    ClauseIsFound(a);
    PointIsFound(a);
    assert a.article == "Điều " + a.article[5..];
  }

  lemma KeyWithoutAppendix(a: LegalAnchor)
    requires Canonical(a) && a.appendix == ""
    ensures NoStart(Appendix, a.article + AfterArticle(a))
  {
    hide NoStart, Canonical;
    PartsNoStart(a, Appendix);
    assert AfterArticle(a) == Rest(a.clause) + Rest(a.point);
    JoinNoStart(Appendix, Rest(a.clause), Rest(a.point));
    JoinNoStart(Appendix, a.article, AfterArticle(a));
  }

  lemma OneArticle(found: seq<Found>)
    requires |found| == 1
    ensures ArticleAnchors(found, 1, "", "") == [ArticleAnchor(found, 0, "", "")]
  {
    assert ArticleAnchors(found, 0, "", "") == [];
  }

  lemma {:induction false} AppendixKeepsFirst(anchors: seq<LegalAnchor>, found: seq<Found>, document: string,
                                              title: string)
    ensures anchors <= AppendixAnchors(anchors, found, document, title)
    ensures forall b :: b in AppendixAnchors(anchors, found, document, title) ==>
                          b in anchors || (b.article == "" && b.clause == "" && b.point == "")
  {
    if found != [] {
      AppendixKeepsFirst(anchors, found[..|found| - 1], document, title);
    }
  }

  /** Without an article only appendix anchors can come out. */
  lemma {:induction false} NoArticleAnchor(a: LegalAnchor, titles: Titles)
    requires Canonical(a) && a.documentNumber == "" && a.article == "" && TitlesNeedNames(titles)
    ensures forall b :: b in Anchors(Key(a), titles) ==> b.article == "" && b.clause == "" && b.point == ""
    ensures Anchors(Key(a), titles) == AppendixAnchors([], FindAll(Appendix, Key(a), false), "", "")
  {
    hide Match, NoStart, FindAll;
    NoInstrument(a, titles);
    KeyShape(a);
    TailsNoStart(a, Article);
    KeyNoStart(Key(a), AfterArticle(a), Article);
    NothingFound(Article, Key(a), false);
    AppendixKeepsFirst([], FindAll(Appendix, Key(a), false), "", "");
  }

  lemma KeyNoStart(key: string, rest: string, p: Pattern)
    requires Rest(key) == rest && NoStart(p, rest)
    ensures NoStart(p, key)
  {
    forall i: nat ensures !StartsAt(p, key, i) {
      assert !StartsAt(p, rest, i + 3);
    }
  }

  lemma {:induction false} AppendixRoundTrip(a: LegalAnchor, titles: Titles)
    requires Canonical(a) && a.documentNumber == "" && TitlesNeedNames(titles)
    requires a.article == "" && a.clause == "" && a.point == "" && a.appendix != ""
    ensures Anchors(Key(a), titles) == [a]
  {
    hide JoinParts, FindAll, Anchors, UpperAll, Canonical;
    TitleAbsent(a);
    KeyShape(a);
    assert AfterArticle(a) == Rest(a.appendix);
    assert Key(a) == Rest(Key(a))[3..] == a.appendix;
    NoArticleAnchor(a, titles);
    AppendixShape(a);
    AppendixIsFound(a.appendix);
    OneAppendix(FindAll(Appendix, a.appendix, false));
  }

  lemma AppendixShape(a: LegalAnchor)
    requires Canonical(a) && a.appendix != ""
    ensures "Phụ lục " <= a.appendix && IsAppendixNumber(a.appendix[8..])
    ensures a.appendix == "Phụ lục " + a.appendix[8..]
  {
  }

  lemma {:induction false} AppendixIsFound(appendix: string)
    requires "Phụ lục " <= appendix && IsAppendixNumber(appendix[8..])
    ensures FindAll(Appendix, appendix, false) == [Found(appendix, appendix[8..], "")]
    ensures UpperAll(appendix[8..]) == appendix[8..]
  {
    hide Match;
    AppendixHead(appendix);
    UpperAppendix(appendix[8..]);
  }

  lemma OneAppendix(found: seq<Found>)
    requires |found| == 1
    ensures AppendixAnchors([], found, "", "") ==
            [LegalAnchor("", "", "", "", "", "Phụ lục " + UpperAll(found[0].group))]
  {
    assert found[..0] == [] && AppendixAnchors([], found[..0], "", "") == [];
  }

  lemma UpperAppendix(g: string)
    requires IsAppendixNumber(g)
    ensures UpperAll(g) == g
  {
    RunChars(Digits, g);
  }

  /** Printing and parsing undo each other for exactly the addressable anchors: an article with optional clause and
      point, or an appendix alone. */
  lemma {:induction false} RoundTripExactly(a: LegalAnchor, titles: Titles)
    requires Canonical(a) && a.documentNumber == "" && TitlesNeedNames(titles)
    ensures Anchors(Key(a), titles) == [a] <==> Addressable(a)
  {
    hide Anchors, Canonical, Key;
    assert a.documentTitle == "" by { TitleAbsent(a); }
    if a.article != "" {
      FirstAnchor(a, titles);
    } else {
      NoArticleAnchor(a, titles);
      if Addressable(a) {
        AppendixRoundTrip(a, titles);
      } else if Anchors(Key(a), titles) == [a] {
        assert a in Anchors(Key(a), titles);
        assert a == LegalAnchor("", "", "", "", "", "");
        EmptyKey(titles);
      }
    }
  }

  lemma TitleAbsent(a: LegalAnchor)
    requires Canonical(a)
    ensures a.documentTitle == ""
  {
  }

  lemma EmptyKey(titles: Titles)
    requires TitlesNeedNames(titles)
    ensures Anchors(Key(LegalAnchor("", "", "", "", "", "")), titles) == []
  {
    assert Key(LegalAnchor("", "", "", "", "", "")) == "";
  }

  // ---- a document number never survives ----

  /** What the document pattern's group can hold, in upper case as the parser stores it. */
  predicate IsDocumentNumber(d: string) { MatchDocumentNumber(d) == Some(Hit(d, "")) && UpperAll(d) == d }

  predicate Plain(c: char) { IsDigit(c) || c == '/' }

  lemma {:induction false} WordsStartWithLetters(t: string, words: seq<seq<string>>)
    requires MatchAny(t, words).Some?
    requires forall i :: 0 <= i < |words| ==> words[i] != [] && words[i][0] != "" && !Plain(words[i][0][0])
    ensures t != "" && !Plain(t[0])
  {
    if MatchSyllables(t, words[0]).Some? {
      assert Literal(t, words[0][0]);
      assert Fold(t[0]) == words[0][0][0];
    } else {
      WordsStartWithLetters(t, words[1..]);
    }
  }

  lemma DocumentStartsWithLetter(t: string)
    requires Match(Document, t).Some?
    ensures t != "" && !Plain(t[0])
  {
    var words := Words(Document);
    forall i | 0 <= i < |words| ensures words[i] != [] && words[i][0] != "" && !Plain(words[i][0][0]) {
    }
    WordsStartWithLetters(t, words);
  }

  ghost predicate AllPlain(t: string) { forall i :: 0 <= i < |t| ==> Plain(t[i]) }

  /** Digits and slashes, followed by text without a slash, name no document. */
  lemma {:induction false} BareNumberIsNoDocument(x: string, y: string, inWord: bool)
    requires AllPlain(x) && '/' !in y
    ensures FindAll(Document, x + y, inWord) == []
    decreases |x|
  {
    hide Match;
    if x == "" {
      assert x + y == y;
      NoDocument(y, inWord);
    } else {
      assert (x + y)[0] == x[0] && (x + y)[1..] == x[1..] + y;
      if Match(Document, x + y).Some? {
        DocumentStartsWithLetter(x + y);
      }
      BareNumberIsNoDocument(x[1..], y, IsWord(x[0]));
    }
  }

  /** A document number is digits and slashes, then a part without slashes. */
  lemma NumberSplits(d: string) returns (x: string, y: string)
    requires IsDocumentNumber(d)
    ensures d == x + y && x != "" && AllPlain(x) && '/' !in y && NoName(d)
  {
    hide Fold, IsLetter, UpperAll, Run, NoName;
    var k := Run(Digits, d);
    RunChars(Digits, d);
    var n := if k + 1 + Run(Tail, d[k + 1..]) == |d| then k + 1 else k + 6;
    x, y := d[..n], d[n..];
    TailRun(y);
    PlainNoName(x);
    NoNameJoin(x, y);
  }

  lemma TailRun(t: string)
    requires Run(Tail, t) == |t|
    ensures '/' !in t && NoName(t)
  {
    RunChars(Tail, t);
    forall i | 0 <= i < |t| ensures t[i] != '/' && !IsNameLetter(Fold(t[i])) {
      TailCharacter(t[i]);
    }
  }

  lemma TailCharacter(c: char)
    requires IsNumberTail(c)
    ensures c != '/' && !IsNameLetter(Fold(c))
  {
  }

  lemma PlainNoName(t: string)
    requires AllPlain(t)
    ensures NoName(t)
  {
  }

  lemma CleanNoName(t: string)
    requires AllClean(t)
    ensures NoName(t) && '/' !in t
  {
    hide Fold;
  }

  lemma NoNameJoin(x: string, y: string)
    ensures NoName(x) && NoName(y) ==> NoName(x + y)
  {
    hide Fold;
  }

  lemma {:induction false} NoInstrumentInNumber(a: LegalAnchor, titles: Titles)
    requires Canonical(a) && IsDocumentNumber(a.documentNumber) && TitlesNeedNames(titles)
    ensures FindAll(Document, Key(a), false) == [] && titles(Key(a)) == []
  {
    hide Canonical, FindAll, JoinParts, IsDocumentNumber, AllClean, AllPlain, NoName;
    var rest := Rest(a.article) + AfterArticle(a);
    var x, y := NumberSplits(a.documentNumber);
    TitleAbsent(a);
    KeyShape(a);
    PartsClean(a);
    RestClean(a.article);
    RestClean(a.clause);
    RestClean(a.point);
    RestClean(a.appendix);
    CleanJoin(Rest(a.point), AfterPoint(a));
    CleanJoin(Rest(a.clause), AfterClause(a));
    CleanJoin(Rest(a.article), AfterArticle(a));
    CleanNoName(rest);
    NoNameJoin(a.documentNumber, rest);
    assert x + y + rest == x + (y + rest);
    BareNumberIsNoDocument(x, y + rest, false);
  }

  lemma {:induction false} ArticlesCarryDocument(found: seq<Found>, n: nat, document: string, title: string)
    requires n <= |found| && InOrder(found)
    ensures forall b :: b in ArticleAnchors(found, n, document, title) ==> b.documentNumber == document
  {
    hide FindAll;
    if n > 0 {
      ArticlesCarryDocument(found, n - 1, document, title);
    }
  }

  lemma {:induction false} AppendicesCarryDocument(anchors: seq<LegalAnchor>, found: seq<Found>, document: string,
                                                   title: string)
    requires forall b :: b in anchors ==> b.documentNumber == document
    ensures forall b :: b in AppendixAnchors(anchors, found, document, title) ==> b.documentNumber == document
  {
    if found != [] {
      AppendicesCarryDocument(anchors, found[..|found| - 1], document, title);
    }
  }

  /** The key prints a document number without its instrument word, so the parser never gives the number back:
      neither alone nor together with an article, clause, point or appendix. */
  lemma {:induction false} DocumentNumberIsLost(a: LegalAnchor, titles: Titles)
    requires Canonical(a) && IsDocumentNumber(a.documentNumber) && TitlesNeedNames(titles)
    ensures forall b :: b in Anchors(Key(a), titles) ==> b.documentNumber == ""
    ensures Anchors(Key(a), titles) != [a]
  {
    hide FindAll, Canonical, Key, IsDocumentNumber;
    NoInstrumentInNumber(a, titles);
    var x, y := NumberSplits(a.documentNumber);
    var articles := FindAll(Article, Key(a), false);
    ArticlesCarryDocument(articles, |articles|, "", "");
    AppendicesCarryDocument(ArticleAnchors(articles, |articles|, "", ""), FindAll(Appendix, Key(a), false), "", "");
    assert a in [a];
  }

  // ---- lists of anchors ----

  ghost function Keys(anchors: seq<LegalAnchor>): seq<string> {
    seq(|anchors|, i requires 0 <= i < |anchors| => Key(anchors[i]))
  }

  predicate RoundTripper(a: LegalAnchor) { Canonical(a) && a.documentNumber == "" && Addressable(a) }

  /** Addressable anchors have different keys. */
  lemma KeysDiffer(a: LegalAnchor, b: LegalAnchor, titles: Titles)
    requires RoundTripper(a) && RoundTripper(b) && TitlesNeedNames(titles) && Key(a) == Key(b)
    ensures a == b
  {
    hide Anchors, Canonical, Key;
    RoundTripExactly(a, titles);
    RoundTripExactly(b, titles);
    assert [a][0] == [b][0];
  }

  ghost predicate Solid(t: string) { t != "" && !IsSpace(t[0]) && !IsSpace(t[|t| - 1]) }

  lemma SolidJoin(x: string, part: string)
    requires Solid(x) && (part == "" || Solid(part))
    ensures Solid(x + Rest(part))
  {
  }

  lemma PartsSolid(a: LegalAnchor)
    requires Canonical(a)
    ensures a.article == "" || Solid(a.article)
    ensures a.clause == "" || Solid(a.clause)
    ensures a.point == "" || Solid(a.point)
    ensures a.appendix == "" || Solid(a.appendix)
  {
    if a.article != "" {
      NumberSolid(a.article[5..]);
    }
    if a.clause != "" {
      NumberSolid(a.clause[6..]);
    }
    if a.appendix != "" {
      NumberSolid(a.appendix[8..]);
    }
  }

  lemma NumberSolid(num: string)
    requires IsNumber(num) || IsAppendixNumber(num)
    ensures num != "" && !IsSpace(num[|num| - 1])
  {
    RunChars(Digits, num);
    RunChars(Romans, num);
  }

  /** Keys need no stripping. */
  lemma KeyIsStripped(a: LegalAnchor)
    requires RoundTripper(a)
    ensures Key(a) != "" && Strip(Key(a)) == Key(a)
  {
    hide Canonical, JoinParts, Solid;
    TitleAbsent(a);
    KeyShape(a);
    PartsSolid(a);
    if a.article != "" {
      SolidJoin(a.article, a.clause);
      SolidJoin(a.article + Rest(a.clause), a.point);
      SolidJoin(a.article + Rest(a.clause) + Rest(a.point), a.appendix);
      assert Key(a) == a.article + Rest(a.clause) + Rest(a.point) + Rest(a.appendix);
    } else {
      assert AfterArticle(a) == Rest(a.appendix);
      assert Key(a) == Rest(Key(a))[3..] == a.appendix;
    }
    SolidIsStripped(Key(a));
  }

  lemma SolidIsStripped(t: string)
    requires Solid(t)
    ensures t != "" && Strip(t) == t
  {
  }

  /** Printing a list of addressable anchors and parsing the keys gives back the list without repeats, and no key is
      rejected. */
  lemma {:induction false} ListRoundTrip(anchors: seq<LegalAnchor>, titles: Titles)
    requires TitlesNeedNames(titles) && forall i :: 0 <= i < |anchors| ==> RoundTripper(anchors[i])
    ensures Parsed(Keys(anchors), titles) == WithoutRepeats(anchors)
    ensures Invalid(Keys(anchors), titles) == []
  {
    hide Anchors, Canonical, Key, Strip;
    if anchors != [] {
      var front, last := anchors[..|anchors| - 1], anchors[|anchors| - 1];
      ListRoundTrip(front, titles);
      assert Keys(anchors)[..|front|] == Keys(front);
      KeyIsStripped(last);
      RoundTripExactly(last, titles);
      var before := WithoutRepeats(front);
      KeptOnce(front);
      OneAnchor(before, last);
      if i :| 0 <= i < |before| && Key(before[i]) == Key(last) {
        assert before[i] in front;
        KeysDiffer(before[i], last, titles);
      }
      if last in front {
        assert last in before;
      }
    }
  }

  lemma OneAnchor(before: seq<LegalAnchor>, a: LegalAnchor)
    requires Key(a) != ""
    ensures AddNew(before, [a]) ==
            if exists i :: 0 <= i < |before| && Key(before[i]) == Key(a) then before else before + [a]
  {
    hide Key;
    assert [a][..0] == [] && AddNew(before, []) == before;
  }
}
