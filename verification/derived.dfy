/** internal/engine/derived.go: whether a client's power feeds are threatened. */
module Derived {
  import opened Options
  import opened Facts

  const THREAT_FLAGS: seq<string> := ["OB", "LB", "DISCHRG", "ALARM", "RB"]

  datatype Feeding = Feeding(feeds: seq<string>, needsAll: bool, lossThreatens: bool)

  // ---------------------------------------------------------------------
  // A status string is split on white space.

  predicate Space(c: char) {
    || '\t' <= c <= '\r' || c == ' ' || c == '\U{85}' || c == '\U{A0}' || c == '\U{1680}'
    || '\U{2000}' <= c <= '\U{200A}' || c == '\U{2028}' || c == '\U{2029}' || c == '\U{202F}'
    || c == '\U{205F}' || c == '\U{3000}'
  }

  /** Where the word that ends `s` begins. */
  function WordStart(sp: char -> bool, s: string): (k: nat)
    ensures k <= |s| && (forall j | k <= j < |s| :: !sp(s[j])) && (k == 0 || sp(s[k - 1]))
  {
    if s == [] || sp(s[|s| - 1]) then |s| else WordStart(sp, s[..|s| - 1])
  }

  function Fields(sp: char -> bool, s: string): seq<string> {
    if s == [] then []
    else if sp(s[|s| - 1]) then Fields(sp, s[..|s| - 1])
    else Fields(sp, s[..WordStart(sp, s)]) + [s[WordStart(sp, s)..]]
  }

  /** `s[i..j]` is a maximal stretch without white space. */
  predicate Token(sp: char -> bool, s: string, i: int, j: int) {
    && 0 <= i < j <= |s|
    && (forall k | i <= k < j :: !sp(s[k]))
    && (i == 0 || sp(s[i - 1]))
    && (j == |s| || sp(s[j]))
  }

  lemma TokensBeforeSpace(sp: char -> bool, s: string, i: int, j: int)
    requires s != [] && sp(s[|s| - 1])
    ensures Token(sp, s, i, j) <==> Token(sp, s[..|s| - 1], i, j)
  {
  }

  lemma TokensBeforeWord(sp: char -> bool, s: string, i: int, j: int)
    requires s != [] && !sp(s[|s| - 1])
    ensures Token(sp, s, i, j) <==> Token(sp, s[..WordStart(sp, s)], i, j) || (i == WordStart(sp, s) && j == |s|)
  {
    var k := WordStart(sp, s);
    assert k < i <= |s| ==> !sp(s[i - 1]);
    assert k <= j < |s| ==> !sp(s[j]);
    assert k == 0 || sp(s[k - 1]);
  }

  /** `w` is a token of `s`. */
  ghost predicate HasToken(sp: char -> bool, s: string, w: string) {
    exists i, j :: Token(sp, s, i, j) && s[i..j] == w
  }

  lemma SliceOfPrefix(s: string, k: int, i: int, j: int)
    requires 0 <= i <= j <= k <= |s|
    ensures s[..k][i..j] == s[i..j]
  {
  }

  /** The tokens of a prefix that are tokens of the whole. */
  lemma TokenOfPrefix(sp: char -> bool, s: string, k: nat, w: string)
    requires k <= |s| && HasToken(sp, s[..k], w)
    requires forall i, j | Token(sp, s[..k], i, j) :: Token(sp, s, i, j)
    ensures HasToken(sp, s, w)
  {
    var p := s[..k];
    var i, j :| Token(sp, p, i, j) && p[i..j] == w;
    SliceOfPrefix(s, k, i, j);
  }

  lemma LastWordIsToken(sp: char -> bool, s: string)
    requires s != [] && !sp(s[|s| - 1])
    ensures HasToken(sp, s, s[WordStart(sp, s)..])
  {
    TokensBeforeWord(sp, s, WordStart(sp, s), |s|);
    assert s[WordStart(sp, s)..|s|] == s[WordStart(sp, s)..];
  }

  lemma {:induction false} TokenOfField(sp: char -> bool, s: string, w: string)
    requires w in Fields(sp, s)
    ensures HasToken(sp, s, w)
  {
    if sp(s[|s| - 1]) {
      TokenOfField(sp, s[..|s| - 1], w);
      forall i, j | Token(sp, s[..|s| - 1], i, j) ensures Token(sp, s, i, j) {
        TokensBeforeSpace(sp, s, i, j);
      }
      TokenOfPrefix(sp, s, |s| - 1, w);
    } else if w == s[WordStart(sp, s)..] {
      LastWordIsToken(sp, s);
    } else {
      var k := WordStart(sp, s);
      TokenOfField(sp, s[..k], w);
      forall i, j | Token(sp, s[..k], i, j) ensures Token(sp, s, i, j) {
        TokensBeforeWord(sp, s, i, j);
      }
      TokenOfPrefix(sp, s, k, w);
    }
  }

  lemma {:induction false} FieldOfToken(sp: char -> bool, s: string, i: int, j: int)
    requires Token(sp, s, i, j)
    ensures s[i..j] in Fields(sp, s)
  {
    if sp(s[|s| - 1]) {
      TokensBeforeSpace(sp, s, i, j);
      FieldOfToken(sp, s[..|s| - 1], i, j);
      assert s[..|s| - 1][i..j] == s[i..j];
    } else {
      TokensBeforeWord(sp, s, i, j);
      var k := WordStart(sp, s);
      if i == k {
        assert s[i..j] == s[k..];
      } else {
        FieldOfToken(sp, s[..k], i, j);
        assert s[..k][i..j] == s[i..j];
      }
    }
  }

  /** The fields of a string are exactly its maximal stretches without space. */
  lemma FieldsAreTokens(sp: char -> bool, s: string, w: string)
    ensures w in Fields(sp, s) <==> HasToken(sp, s, w)
  {
    if w in Fields(sp, s) {
      TokenOfField(sp, s, w);
    }
    forall i, j | Token(sp, s, i, j) && s[i..j] == w ensures w in Fields(sp, s) {
      FieldOfToken(sp, s, i, j);
    }
  }

  // ---------------------------------------------------------------------
  // One feed.

  /** The flags a status value lists, if it is one that lists flags. */
  function FlagsOf(v: Value): Option<seq<string>> {
    match v
    case Words(ws) => Some(ws)
    case Items(items) => Some(Strings(items))
    case Text(s) => Some(Fields(Space, s))
    case _ => None
  }

  function Strings(items: seq<Option<string>>): seq<string> {
    if items == [] then []
    else
      var rest, last := Strings(items[..|items| - 1]), items[|items| - 1];
      if last.Some? then rest + [last.value] else rest
  }

  /** Some flag of a readable status is a threat; None when nothing can be read. */
  function FeedThreat(r: Readings, feed: string): Trilean {
    var f := Read(r, feed + ".status");
    if !Usable(f) || FlagsOf(f.value).None? then Unavailable
    else FromBool(exists flag | flag in FlagsOf(f.value).value :: flag in THREAT_FLAGS)
  }

  method AnyThreatFlag(flags: seq<string>) returns (found: bool)
    ensures found <==> exists flag | flag in flags :: flag in THREAT_FLAGS
  {
    for i := 0 to |flags|
      invariant forall j | 0 <= j < i :: flags[j] !in THREAT_FLAGS
    {
      if flags[i] in THREAT_FLAGS {
        return true;
      }
    }
    return false;
  }

  method FeedThreatened(r: Readings, feed: string) returns (t: Trilean)
    ensures t == FeedThreat(r, feed)
  {
    var f := Read(r, feed + ".status");
    if f.quality != Good || f.value.Nil? {
      return Unavailable;
    }
    match f.value
    case Words(ws) =>
      var found := AnyThreatFlag(ws);
      t := FromBool(found);
    case Items(items) =>
      for i := 0 to |items|
        invariant forall flag | flag in Strings(items[..i]) :: flag !in THREAT_FLAGS
      {
        assert items[..i + 1][..i] == items[..i];
        if items[i].Some? && items[i].value in THREAT_FLAGS {
          StringsHold(items, i);
          return True;
        }
      }
      assert items[..|items|] == items;
      t := False;
    case Text(s) =>
      var found := AnyThreatFlag(Fields(Space, s));
      t := FromBool(found);
    case _ =>
      t := Unavailable;
  }

  lemma {:induction false} StringsHold(items: seq<Option<string>>, i: nat)
    requires i < |items| && items[i].Some?
    ensures items[i].value in Strings(items)
  {
    if i < |items| - 1 {
      StringsHold(items[..|items| - 1], i);
    }
  }

  // ---------------------------------------------------------------------
  // The feeds of a client.

  /** The prefix of the facts the daemon computes itself. */
  const DERIVED_SOURCE := "client"

  const STATUS := ".status"

  /** Source instance `i` declares a UPS status fact. */
  predicate IsUps(declared: set<string>, i: string) {
    '.' !in i && i != DERIVED_SOURCE && i + STATUS in declared
  }

  /** A client's feeds: those it lists, or every UPS when it lists none. */
  predicate IsFeed(declared: set<string>, c: Feeding, f: string) {
    if c.feeds != [] then f in c.feeds else IsUps(declared, f)
  }

  /** Position of the first dot, or the length. */
  method Cut(key: string) returns (d: nat)
    ensures d <= |key| && '.' !in key[..d] && (d < |key| ==> key[d] == '.')
  {
    d := 0;
    while d < |key| && key[d] != '.'
      invariant d <= |key| && '.' !in key[..d]
    {
      d := d + 1;
    }
  }

  /** Cutting at the first dot and finding "status" behind it tells the instance. */
  lemma CutTells(key: string, d: nat, i: string)
    requires d <= |key| && '.' !in key[..d] && (d < |key| ==> key[d] == '.')
    ensures '.' !in i && key == i + STATUS <==> d < |key| && key[d..] == STATUS && i == key[..d]
  {
    if '.' !in i && key == i + STATUS {
      assert key[|i|] == STATUS[0] == '.';
      assert forall k | 0 <= k < |i| :: key[k] == i[k];
      assert d == |i|;
    }
    if d < |key| && key[d..] == STATUS && i == key[..d] {
      assert key == key[..d] + key[d..];
    }
  }

  /** Every source instance that declares a status, each once. */
  method UpsSources(declared: set<string>) returns (feeds: seq<string>)
    ensures forall i :: i in feeds <==> IsUps(declared, i)
    ensures forall j, k | 0 <= j < k < |feeds| :: feeds[j] != feeds[k]
  {
    feeds := [];
    var todo := declared;
    while todo != {}
      invariant todo <= declared
      invariant forall i :: i in feeds <==> IsUps(declared - todo, i)
      invariant forall j, k | 0 <= j < k < |feeds| :: feeds[j] != feeds[k]
      decreases |todo|
    {
      var key :| key in todo;
      var d := Cut(key);
      ghost var seen, was := declared - todo, feeds;
      todo := todo - {key};
      if d < |key| && key[d..] == STATUS && key[..d] != DERIVED_SOURCE && key[..d] !in feeds {
        feeds := feeds + [key[..d]];
      }
      forall i ensures i in feeds <==> IsUps(declared - todo, i) {
        CutTells(key, d, i);
        assert i in was <==> IsUps(seen, i);
      }
    }
  }

  method ClientFeeds(declared: set<string>, c: Feeding) returns (feeds: seq<string>)
    ensures forall f :: f in feeds <==> IsFeed(declared, c, f)
  {
    if |c.feeds| > 0 {
      return c.feeds;
    }
    feeds := UpsSources(declared);
  }

  // ---------------------------------------------------------------------
  // One client.

  /** Under `any` one threatened feed is enough; under `all` every feed must be.
      Feeds that cannot be read decide only where they could make the difference,
      and then as comms_loss_assumes says. */
  ghost predicate Threatened(r: Readings, declared: set<string>, c: Feeding) {
    && (exists f :: IsFeed(declared, c, f))
    && if c.needsAll then
         && (forall f | IsFeed(declared, c, f) :: !FeedThreat(r, f).False?)
         && (c.lossThreatens || forall f | IsFeed(declared, c, f) :: FeedThreat(r, f).True?)
       else
         || (exists f | IsFeed(declared, c, f) :: FeedThreat(r, f).True?)
         || (c.lossThreatens && exists f | IsFeed(declared, c, f) :: FeedThreat(r, f).Unavailable?)
  }

  /** And over all feeds, up to the first that settles it. */
  method AllFeeds(r: Readings, feeds: seq<string>) returns (result: Trilean)
    ensures result.False? <==> exists f | f in feeds :: FeedThreat(r, f).False?
    ensures result.True? <==> forall f | f in feeds :: FeedThreat(r, f).True?
  {
    result := True;
    for i := 0 to |feeds|
      invariant !result.False?
      invariant forall j | 0 <= j < i :: !FeedThreat(r, feeds[j]).False?
      invariant result.True? <==> forall j | 0 <= j < i :: FeedThreat(r, feeds[j]).True?
    {
      var t := FeedThreatened(r, feeds[i]);
      result := And(result, t);
      if result.False? {
        assert feeds[i] in feeds;
        return;
      }
    }
  }

  method AnyFeed(r: Readings, feeds: seq<string>) returns (result: Trilean)
    ensures result.True? <==> exists f | f in feeds :: FeedThreat(r, f).True?
    ensures result.False? <==> forall f | f in feeds :: FeedThreat(r, f).False?
  {
    result := False;
    for i := 0 to |feeds|
      invariant !result.True?
      invariant forall j | 0 <= j < i :: !FeedThreat(r, feeds[j]).True?
      invariant result.False? <==> forall j | 0 <= j < i :: FeedThreat(r, feeds[j]).False?
    {
      var t := FeedThreatened(r, feeds[i]);
      result := Or(result, t);
      if result.True? {
        assert feeds[i] in feeds;
        return;
      }
    }
  }

  method ClientThreatened(r: Readings, declared: set<string>, c: Feeding) returns (threatened: bool)
    ensures threatened <==> Threatened(r, declared, c)
  {
    var feeds := ClientFeeds(declared, c);
    if |feeds| == 0 {
      return false;
    }
    assert IsFeed(declared, c, feeds[0]);
    var result;
    if c.needsAll {
      result := AllFeeds(r, feeds);
    } else {
      result := AnyFeed(r, feeds);
    }
    match result
    case True => threatened := true;
    case False => threatened := false;
    case Unavailable => threatened := c.lossThreatens;
  }

  /** Losing sensors can only switch the answer off under `safe`, and only switch
      it on under `threatened`. */
  lemma SensorLossLeansOneWay(worse: Readings, better: Readings, declared: set<string>, c: Feeding)
    requires Degraded(worse, better)
    ensures !c.lossThreatens && Threatened(worse, declared, c) ==> Threatened(better, declared, c)
    ensures c.lossThreatens && Threatened(better, declared, c) ==> Threatened(worse, declared, c)
  {
    forall f ensures Vaguer(FeedThreat(worse, f), FeedThreat(better, f)) {
      assert Read(worse, f + ".status") == Read(better, f + ".status") || !Usable(Read(worse, f + ".status"));
    }
    if c.lossThreatens && Threatened(better, declared, c) && !c.needsAll {
      var f :| IsFeed(declared, c, f) && (FeedThreat(better, f).True? || FeedThreat(better, f).Unavailable?);
      assert FeedThreat(worse, f).True? || FeedThreat(worse, f).Unavailable?;
    }
    if !c.lossThreatens && Threatened(worse, declared, c) && !c.needsAll {
      var f :| IsFeed(declared, c, f) && FeedThreat(worse, f).True?;
      assert FeedThreat(better, f).True?;
    }
  }

  /** A client whose every feed has gone quiet is threatened exactly when it was
      configured to assume so. */
  lemma SilenceFollowsConfig(r: Readings, declared: set<string>, c: Feeding)
    requires exists f :: IsFeed(declared, c, f)
    requires forall f | IsFeed(declared, c, f) :: !Usable(Read(r, f + ".status"))
    ensures Threatened(r, declared, c) <==> c.lossThreatens
  {
    var f :| IsFeed(declared, c, f);
    assert FeedThreat(r, f).Unavailable?;
  }
}
