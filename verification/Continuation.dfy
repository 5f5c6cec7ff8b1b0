/**
 The continuation codec (src/market_intelligence/providers/continuation.py) and the configuration
 normaliser both sides hash (src/market_intelligence/providers/breadth_config.py).

 SHA-256 digests are modelled by an injective constructor: `Digest(x)` stands for the hash of `x`.
 */
module Continuation {
  import opened Keys
  import opened Windows

  datatype Digest<T> = Digest(of: T)

  /** The five paged operations. */
  datatype Api = MarketauxNews | FinnhubNews | EiaRetail | EiaRto | SecSubmissions

  function WindowClass(api: Api): (op: Operation) {
    match api
    case EiaRetail => RetailSales
    case EiaRto => RtoRegion
    case _ => Daily
  }

  /** Operation settings. `rest` stands for the keys that are checked and copied unchanged. */
  datatype Settings =
    | Plain(rest: string)
    | Sec(cik: string, maxHistory: Option<int>, rest: string)

  datatype Config = Config(settings: Settings, spec: Spec)

  predicate IsDigit(c: char) { '0' <= c <= '9' }

  predicate Digits(s: string) { forall i :: 0 <= i < |s| ==> IsDigit(s[i]) }

  /** str.zfill(10) */
  function Zfill(s: string): (r: string)
    ensures |s| <= 10 ==> |r| == 10
    ensures Digits(s) ==> Digits(r)
    ensures |s| >= 10 ==> r == s
  {
    if |s| >= 10 then s else seq(10 - |s|, _ => '0') + s
  }

  /** breadth_config: reject or normalise. Only the SEC operation rewrites anything. */
  function BreadthConfig(api: Api, c: Config): (r: Option<Config>) {
    if !ValidSpec(WindowClass(api), c.spec) || api.SecSubmissions? != c.settings.Sec? then None
    else if c.settings.Plain? then Some(c)
    else if !(1 <= |c.settings.cik| <= 10 && Digits(c.settings.cik)) then None
    else
      var files := if c.settings.maxHistory.None? then 2 else c.settings.maxHistory.value;
      if !(0 <= files <= 5) then None
      else Some(Config(Sec(Zfill(c.settings.cik), Some(files), c.settings.rest), c.spec))
  }

  /** The number a string of digits stands for. */
  function Numeral(s: string): (n: int)
    requires Digits(s)
  {
    if s == [] then 0 else 10 * Numeral(s[..|s| - 1]) + (s[|s| - 1] as int - '0' as int)
  }

  lemma {:induction false} PaddedNumeral(n: nat, s: string)
    requires Digits(s)
    ensures Digits(seq(n, _ => '0') + s) && Numeral(seq(n, _ => '0') + s) == Numeral(s)
    decreases n + |s|
  {
    var p := seq(n, _ => '0') + s;
    if s != [] {
      PaddedNumeral(n, s[..|s| - 1]);
      assert p[..|p| - 1] == seq(n, _ => '0') + s[..|s| - 1];
    } else if n > 0 {
      PaddedNumeral(n - 1, s);
      assert p[..|p| - 1] == seq(n - 1, _ => '0') + s;
    }
  }

  /**
   Normalisation keeps what a configuration means: it is accepted iff its window is and, for SEC, its CIK has one to ten
   digits and its history budget is 0 to 5; then the window stays, the CIK is the same number in ten digits, and the budget
   is the stored one or 2. Nothing else is rewritten.
   */
  lemma NormalisedConfig(api: Api, c: Config)
    ensures BreadthConfig(api, c).Some? <==>
            && ValidSpec(WindowClass(api), c.spec) && (api == SecSubmissions <==> c.settings.Sec?)
            && (c.settings.Sec? ==>
                  && 1 <= |c.settings.cik| <= 10 && Digits(c.settings.cik)
                  && (c.settings.maxHistory.Some? ==> 0 <= c.settings.maxHistory.value <= 5))
    ensures BreadthConfig(api, c).Some? && !c.settings.Sec? ==> BreadthConfig(api, c).value == c
    ensures BreadthConfig(api, c).Some? && c.settings.Sec? ==>
              var n := BreadthConfig(api, c).value;
              && n.spec == c.spec && n.settings.Sec? && n.settings.rest == c.settings.rest
              && |n.settings.cik| == 10 && Digits(n.settings.cik) && Numeral(n.settings.cik) == Numeral(c.settings.cik)
              && n.settings.maxHistory == (if c.settings.maxHistory.Some? then c.settings.maxHistory else Some(2))
  {
    if BreadthConfig(api, c).Some? && c.settings.Sec? && |c.settings.cik| < 10 {
      PaddedNumeral(10 - |c.settings.cik|, c.settings.cik);
    }
  }

  /** resolved_config: the rolling keys are replaced by the frozen window. */
  function ResolvedConfig(c: Config, w: Window): (r: Config) {
    Config(c.settings, Fixed(w))
  }

  /**
   The worker hashes the resolved form of the configuration it loaded, the adapter hashes what it
   normalises again. Normalising a resolved, already normalised configuration changes nothing, so the
   two digests agree for every stored configuration and every acceptable window.
   */
  lemma HashesAgree(api: Api, stored: Config, w: Window)
    requires BreadthConfig(api, stored).Some? && ValidFixed(WindowClass(api), w)
    ensures var loaded := BreadthConfig(api, stored).value;
            var request := ResolvedConfig(loaded, w);
            && BreadthConfig(api, loaded) == Some(loaded)
            && BreadthConfig(api, request) == Some(request)
            && Digest(BreadthConfig(api, request).value) == Digest(request)
  {
  }

  datatype RunMode = Normal | Backfill

  datatype Lineage = Lineage(targetId: nat, revision: nat, api: Api, configVersion: nat,
                             contractVersion: nat, cursorVersion: nat, mode: RunMode)

  /** Progress inside a traversal. `Start` is the empty state. */
  datatype Progress =
    | Start
    | PageNo(page: int)
    | Offset(offset: int)
    | LastKey(key: Key)
    | SecAt(file: Option<string>, files: Option<seq<string>>, after: Option<Key>)

  datatype Token = Token(version: int, api: Api, configHash: Digest<Config>, window: Window,
                         lineage: Lineage, state: Progress)

  predicate CodecKey(k: Key) {
    1 <= |k.at| <= 255 && 1 <= |k.id| <= 255
  }

  /** CIK<cik>-submissions-ddd.json */
  predicate HistoryFile(cik: string, name: string) {
    && |name| == 3 + |cik| + 13 + 3 + 5
    && name[..3] == "CIK"
    && name[3..3 + |cik|] == cik
    && name[3 + |cik|..3 + |cik| + 13] == "-submissions-"
    && Digits(name[|name| - 8..|name| - 5])
    && name[|name| - 5..] == ".json"
  }

  predicate Distinct<T(==)>(s: seq<T>) {
    forall i, j :: 0 <= i < j < |s| ==> s[i] != s[j]
  }

  predicate SecInDomain(cik: string, p: Progress)
    requires p.SecAt?
  {
    var files := if p.files.Some? then p.files.value else [];
    && (p.after.Some? ==> p.files.Some? && CodecKey(p.after.value))
    && (p.file.None? ==> p.files.Some? && p.after.Some?)
    && |files| <= 5 && Distinct(files) && |cik| == 10 && Digits(cik)
    && (forall f :: f in files ==> HistoryFile(cik, f))
    && (p.file.Some? ==> HistoryFile(cik, p.file.value) && p.file.value !in files)
  }

  /** The states decode_continuation accepts for an operation. */
  predicate InDomain(api: Api, c: Config, p: Progress) {
    match p
    case Start => true
    case PageNo(n) => api.MarketauxNews? && 2 <= n <= 1000
    case Offset(n) => (api.EiaRetail? || api.EiaRto?) && 1 <= n <= 10_000_000
    case LastKey(k) => api.FinnhubNews? && CodecKey(k)
    case SecAt(_, _, _) => api.SecSubmissions? && c.settings.Sec? && SecInDomain(c.settings.cik, p)
  }

  function WindowOf(c: Config): (w: Option<Window>) {
    if c.spec.Fixed? then Some(c.spec.window) else None
  }

  function Decode(t: Token, api: Api, c: Config, lineage: Lineage): (r: Option<Progress>) {
    if t.version != 1 || t.api != api then None
    else if t.configHash != Digest(c) then None
    else if Some(t.window) != WindowOf(c) then None
    else if t.lineage != lineage then None
    else if !InDomain(api, c, t.state) then None
    else Some(t.state)
  }

  function Encode(api: Api, c: Config, lineage: Lineage, state: Progress): (r: Option<Token>) {
    if WindowOf(c).None? then None
    else
      var t := Token(1, api, Digest(c), WindowOf(c).value, lineage, state);
      if Decode(t, api, c, lineage).None? then None else Some(t)
  }

  /** Round trip: encoding succeeds exactly on the codec domain, and decoding returns the state unchanged. */
  lemma RoundTrip(api: Api, w: Window, settings: Settings, lineage: Lineage, state: Progress)
    ensures var c := Config(settings, Fixed(w));
            && (Encode(api, c, lineage, state).Some? <==> InDomain(api, c, state))
            && (InDomain(api, c, state) ==>
                Decode(Encode(api, c, lineage, state).value, api, c, lineage) == Some(state))
  {
  }

  /**
   Binding: a token decodes under at most one operation, configuration, window and lineage, and it is
   then exactly the token that encoding its state there produces.
   */
  lemma OneBinding(t: Token, api: Api, c: Config, l: Lineage, api': Api, c': Config, l': Lineage)
    requires Decode(t, api, c, l).Some?
    ensures Encode(api, c, l, t.state) == Some(t) && c.spec == Fixed(t.window)
    ensures Decode(t, api', c', l').Some? <==> api' == api && c' == c && l' == l
  {
  }

  /**
   The database guard (alembic/versions/0009_m2a_provider_breadth.py) matches SEC file names against
   the CIK as stored on the target, without zero padding. It therefore accepts the names the adapter
   uses exactly when the stored CIK already has ten digits.
   */
  lemma StoredCikGuard(stored: string, name: string)
    requires 1 <= |stored| <= 10 && Digits(stored) && HistoryFile(Zfill(stored), name)
    ensures HistoryFile(stored, name) <==> |stored| == 10
  {
  }

  function FileName(cik: string, number: string): (name: string) {
    "CIK" + cik + "-submissions-" + number + ".json"
  }

  /** The accepted names are exactly the numbered history files of the CIK. */
  lemma FileNameExact(cik: string, name: string)
    ensures HistoryFile(cik, name) <==> exists number :: |number| == 3 && Digits(number) && name == FileName(cik, number)
  {
    if HistoryFile(cik, name) {
      var n := |name|;
      assert name == name[..3] + name[3..3 + |cik|] + name[3 + |cik|..3 + |cik| + 13] + name[n - 8..n - 5] + name[n - 5..];
      assert name == FileName(cik, name[n - 8..n - 5]);
    }
    forall number | |number| == 3 && Digits(number) && name == FileName(cik, number) ensures HistoryFile(cik, name) {
      assert name[|name| - 8..|name| - 5] == number;
    }
  }

  /** The states a continuation may carry, operation by operation. */
  lemma DomainExact(api: Api, c: Config, p: Progress)
    ensures InDomain(api, c, p) <==>
            || p == Start
            || (api == MarketauxNews && p.PageNo? && 2 <= p.page <= 1000)
            || ((api == EiaRetail || api == EiaRto) && p.Offset? && 1 <= p.offset <= 10_000_000)
            || (api == FinnhubNews && p.LastKey? && 1 <= |p.key.at| <= 255 && 1 <= |p.key.id| <= 255)
            || (&& api == SecSubmissions && p.SecAt? && c.settings.Sec? && |c.settings.cik| == 10 && Digits(c.settings.cik)
                && (p.file.None? || p.after.Some? ==> p.files.Some?) && (p.file.None? ==> p.after.Some?)
                && (p.after.Some? ==> 1 <= |p.after.value.at| <= 255 && 1 <= |p.after.value.id| <= 255)
                && (p.file.Some? ==> HistoryFile(c.settings.cik, p.file.value))
                && (p.files.Some? ==>
                      && |p.files.value| <= 5 && (forall f :: f in p.files.value ==> HistoryFile(c.settings.cik, f) && p.file != Some(f))
                      && forall i, j :: 0 <= i < j < |p.files.value| ==> p.files.value[i] != p.files.value[j]))
  {
  }

  /** A failing case: a one-digit CIK names its history files with ten digits, so the guard refuses each. */
  lemma StoredCikGuardFails(number: string)
    requires |number| == 3 && Digits(number)
    ensures HistoryFile(Zfill("1"), FileName(Zfill("1"), number))
    ensures !HistoryFile("1", FileName(Zfill("1"), number))
  {
  }
}
