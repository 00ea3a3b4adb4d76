/** Configuration read from an environment map (crates/outlay-shim/src/config.rs). */
module ShimConfig {
  import opened Wire

  // ---------- strings ----------

  /** The characters `str::trim` strips: Unicode White_Space. */
  predicate IsSpace(c: char) {
    || '\U{0009}' <= c <= '\U{000d}' || c == ' ' || c == '\U{0085}' || c == '\U{00a0}' || c == '\U{1680}'
    || '\U{2000}' <= c <= '\U{200a}' || c == '\U{2028}' || c == '\U{2029}'
    || c == '\U{202f}' || c == '\U{205f}' || c == '\U{3000}'
  }

  function TrimStart(s: string): string { if s != "" && IsSpace(s[0]) then TrimStart(s[1..]) else s }

  function TrimEnd(s: string): string { if s != "" && IsSpace(s[|s| - 1]) then TrimEnd(s[..|s| - 1]) else s }

  function Trim(s: string): string { TrimEnd(TrimStart(s)) }

  /** Nothing left to trim. */
  predicate Trimmed(s: string) { s != "" ==> !IsSpace(s[0]) && !IsSpace(s[|s| - 1]) }

  /** `split(',')`: always at least one part. */
  function Split(s: string): (parts: seq<string>)
    ensures |parts| > 0
  {
    if s == "" then [""]
    else
      var rest := Split(s[1..]);
      if s[0] == ',' then [""] + rest else [[s[0]] + rest[0]] + rest[1..]
  }

  function Join(xs: seq<string>): string {
    if xs == [] then "" else if |xs| == 1 then xs[0] else xs[0] + "," + Join(xs[1..])
  }

  /** Trim every part, drop the empty ones. */
  function Clean(parts: seq<string>): seq<string> {
    if parts == [] then []
    else if Trim(parts[0]) == "" then Clean(parts[1..])
    else [Trim(parts[0])] + Clean(parts[1..])
  }

  function ParseList(raw: string): seq<string> { Clean(Split(raw)) }

  // ---------- the configuration ----------

  datatype EncryptionMode = EncOptional | EncDisabled | EncRequired
  datatype GiftWrapMode = Persistent | Ephemeral | GiftOptional

  datatype ConfigError = InvalidEncryption(v: string) | InvalidGiftWrapMode(v: string) | InvalidBoolean(v: string)

  datatype Outcome<T> = Ok(value: T) | Err(error: ConfigError)

  datatype Config = Config(
    relayUrls: seq<string>,
    publicUrls: seq<string>,
    encryption: EncryptionMode,
    giftWrap: GiftWrapMode,
    enableRelay: bool)

  type Env = map<string, string>

  function OptString(env: Env, name: string): Option<string> {
    if name in env && Trim(env[name]) != "" then Some(Trim(env[name])) else None
  }

  function Lower(s: string): string {
    seq(|s|, i requires 0 <= i < |s| => if 'A' <= s[i] <= 'Z' then s[i] - 'A' + 'a' else s[i])
  }

  function OptBool(env: Env, name: string): Outcome<Option<bool>> {
    match OptString(env, name)
    case None => Ok(None)
    case Some(raw) =>
      var s := Lower(raw);
      if s == "true" || s == "1" then Ok(Some(true))
      else if s == "false" || s == "0" then Ok(Some(false))
      else Err(InvalidBoolean(s))
  }

  const DEFAULT_RELAYS: seq<string> := ["wss://nostr.wtf"]

  const RELAYS := "OUTLAY_SHIM_CVM_RELAYS"
  const PUBLIC_URLS := "OUTLAY_SHIM_PUBLIC_URLS"
  const ENCRYPTION := "OUTLAY_SHIM_ENCRYPTION_MODE"
  const GIFT_WRAP := "OUTLAY_SHIM_GIFT_WRAP_MODE"
  const RELAY := "OUTLAY_SHIM_RELAY"

  function ReadRelays(env: Env): seq<string> {
    match OptString(env, RELAYS)
    case None => DEFAULT_RELAYS
    case Some(raw) => var urls := ParseList(raw); if urls == [] then DEFAULT_RELAYS else urls
  }

  function ReadPublicUrls(env: Env): seq<string> {
    match OptString(env, PUBLIC_URLS) case None => [] case Some(raw) => ParseList(raw)
  }

  function ReadEncryption(env: Env): Outcome<EncryptionMode> {
    match OptString(env, ENCRYPTION)
    case None => Ok(EncOptional)
    case Some(s) =>
      if s == "optional" then Ok(EncOptional)
      else if s == "disabled" then Ok(EncDisabled)
      else if s == "required" then Ok(EncRequired)
      else Err(InvalidEncryption(s))
  }

  function ReadGiftWrap(env: Env): Outcome<GiftWrapMode> {
    match OptString(env, GIFT_WRAP)
    case None => Ok(Ephemeral)
    case Some(s) =>
      if s == "ephemeral" then Ok(Ephemeral)
      else if s == "persistent" then Ok(Persistent)
      else if s == "optional" then Ok(GiftOptional)
      else Err(InvalidGiftWrapMode(s))
  }

  /** `read_shim_config`: the first invalid variable, in reading order, is the error. */
  function Read(env: Env): Outcome<Config> {
    match ReadEncryption(env)
    case Err(e) => Err(e)
    case Ok(encryption) =>
      match ReadGiftWrap(env)
      case Err(e) => Err(e)
      case Ok(giftWrap) =>
        match OptBool(env, RELAY)
        case Err(e) => Err(e)
        case Ok(relay) =>
          Ok(Config(ReadRelays(env), ReadPublicUrls(env), encryption, giftWrap, relay.None? || relay.value))
  }

  /** `public_url` */
  function PublicUrl(cfg: Config): Option<string> {
    if cfg.publicUrls != [] then Some(cfg.publicUrls[0])
    else if cfg.relayUrls != [] then Some(cfg.relayUrls[0])
    else None
  }

  // ---------- lists survive being written down ----------

  /** What an entry of a comma list can be. */
  predicate Entry(s: string) { s != "" && Trimmed(s) && ',' !in s }

  predicate Entries(xs: seq<string>) { forall i :: 0 <= i < |xs| ==> Entry(xs[i]) }

  lemma {:induction false} TrimStartIs(s: string)
    ensures TrimStart(s) != "" ==> !IsSpace(TrimStart(s)[0])
    ensures forall c :: c in TrimStart(s) ==> c in s
  {
    if s != "" && IsSpace(s[0]) {
      TrimStartIs(s[1..]);
    }
  }

  lemma {:induction false} TrimEndIs(s: string)
    ensures TrimEnd(s) <= s
    ensures TrimEnd(s) != "" ==> !IsSpace(TrimEnd(s)[|TrimEnd(s)| - 1])
  {
    if s != "" && IsSpace(s[|s| - 1]) {
      TrimEndIs(s[..|s| - 1]);
    }
  }

  lemma TrimTrims(s: string)
    ensures Trimmed(Trim(s))
    ensures forall c :: c in Trim(s) ==> c in s
    ensures Trimmed(s) ==> Trim(s) == s
  {
    TrimStartIs(s);
    TrimEndIs(TrimStart(s));
  }

  lemma {:induction false} SplitCommaFree(s: string)
    ensures forall i :: 0 <= i < |Split(s)| ==> ',' !in Split(s)[i]
  {
    if s != "" {
      SplitCommaFree(s[1..]);
    }
  }

  lemma {:induction false} SplitWord(x: string)
    requires ',' !in x
    ensures Split(x) == [x]
  {
    if x != "" {
      SplitWord(x[1..]);
      assert [x[0]] + x[1..] == x;
    }
  }

  lemma {:induction false} SplitWordComma(x: string, rest: string)
    requires ',' !in x
    ensures Split(x + "," + rest) == [x] + Split(rest)
  {
    var s := x + "," + rest;
    if x == "" {
      assert s[1..] == rest;
    } else {
      assert s[1..] == x[1..] + "," + rest;
      SplitWordComma(x[1..], rest);
      assert [x[0]] + x[1..] == x;
    }
  }

  lemma {:induction false} SplitJoin(xs: seq<string>)
    requires xs != [] && forall i :: 0 <= i < |xs| ==> ',' !in xs[i]
    ensures Split(Join(xs)) == xs
  {
    if |xs| == 1 {
      SplitWord(xs[0]);
    } else {
      SplitWordComma(xs[0], Join(xs[1..]));
      SplitJoin(xs[1..]);
    }
  }

  lemma {:induction false} CleanEntries(xs: seq<string>)
    requires Entries(xs)
    ensures Clean(xs) == xs
  {
    if xs != [] {
      TrimTrims(xs[0]);
      CleanEntries(xs[1..]);
    }
  }

  lemma {:induction false} CleanYieldsEntries(parts: seq<string>)
    requires forall i :: 0 <= i < |parts| ==> ',' !in parts[i]
    ensures Entries(Clean(parts))
  {
    if parts != [] {
      TrimTrims(parts[0]);
      CleanYieldsEntries(parts[1..]);
    }
  }

  lemma {:induction false} JoinTrimmed(xs: seq<string>)
    requires xs != [] && Entries(xs)
    ensures Join(xs) != "" && Trimmed(Join(xs)) && Join(xs)[0] == xs[0][0]
  {
    if |xs| > 1 {
      JoinTrimmed(xs[1..]);
    }
  }

  /** What any list variable parses to can be written down again and read back. */
  lemma ParseListEntries(raw: string)
    ensures Entries(ParseList(raw))
  {
    SplitCommaFree(raw);
    CleanYieldsEntries(Split(raw));
  }

  /** Reading undoes joining, both for the raw list and through the environment. */
  lemma ListRoundTrip(xs: seq<string>, env: Env)
    requires xs != [] && Entries(xs)
    ensures ParseList(Join(xs)) == xs
    ensures RELAYS in env && env[RELAYS] == Join(xs) ==> ReadRelays(env) == xs
    ensures PUBLIC_URLS in env && env[PUBLIC_URLS] == Join(xs) ==> ReadPublicUrls(env) == xs
  {
    SplitJoin(xs);
    CleanEntries(xs);
    JoinTrimmed(xs);
    TrimTrims(Join(xs));
  }

  /** Re-parsing the join of any parsed list that is not empty gives the list again. */
  lemma ReparseStable(raw: string)
    ensures ParseList(raw) != [] ==> ParseList(Join(ParseList(raw))) == ParseList(raw)
  {
    ParseListEntries(raw);
    if ParseList(raw) != [] {
      ListRoundTrip(ParseList(raw), map[]);
    }
  }

  // ---------- what any environment means ----------

  predicate Blank(s: string) { forall c :: c in s ==> IsSpace(c) }

  /** The blanks, by code point. */
  lemma BlankCharacters(c: char)
    ensures IsSpace(c) <==>
      || 0x9 <= c as int <= 0xd || 0x2000 <= c as int <= 0x200a
      || c as int in {0x20, 0x85, 0xa0, 0x1680, 0x2028, 0x2029, 0x202f, 0x205f, 0x3000}
  {
  }

  lemma {:induction false} TrimStartBlank(a: string, t: string)
    requires Blank(a)
    ensures TrimStart(a + t) == TrimStart(t)
  {
    if a == "" {
      assert a + t == t;
    } else {
      assert (a + t)[1..] == a[1..] + t && a[0] in a;
      TrimStartBlank(a[1..], t);
    }
  }

  lemma {:induction false} TrimEndBlank(t: string, b: string)
    requires Blank(b)
    ensures TrimEnd(t + b) == TrimEnd(t)
  {
    if b == "" {
      assert t + b == t;
    } else {
      assert (t + b)[..|t + b| - 1] == t + b[..|b| - 1] && b[|b| - 1] in b;
      TrimEndBlank(t, b[..|b| - 1]);
    }
  }

  lemma {:induction false} TrimEndAll(b: string)
    requires Blank(b)
    ensures TrimEnd(b) == ""
  {
    assert "" + b == b;
    TrimEndBlank("", b);
  }

  lemma {:induction false} TrimStartKeepsTail(t: string, b: string)
    requires Blank(b)
    ensures if TrimStart(t) == "" then Blank(TrimStart(t + b)) else TrimStart(t + b) == TrimStart(t) + b
  {
    if t == "" {
      assert t + b == b;
      TrimStartIs(b);
    } else {
      assert (t + b)[1..] == t[1..] + b;
      if IsSpace(t[0]) {
        TrimStartKeepsTail(t[1..], b);
      }
    }
  }

  /** Trimming takes off exactly the blanks on both sides. */
  lemma TrimPadded(a: string, t: string, b: string)
    requires Blank(a) && Blank(b)
    ensures Trim(a + t + b) == Trim(t)
  {
    assert a + t + b == a + (t + b);
    TrimStartBlank(a, t + b);
    TrimStartKeepsTail(t, b);
    if TrimStart(t) == "" {
      TrimEndAll(TrimStart(t + b));
    } else {
      TrimEndBlank(TrimStart(t), b);
    }
  }

  lemma {:induction false} TrimStartSplits(s: string) returns (a: string)
    ensures Blank(a) && s == a + TrimStart(s)
  {
    a := "";
    if s != "" && IsSpace(s[0]) {
      var rest := TrimStartSplits(s[1..]);
      a := [s[0]] + rest;
    }
  }

  lemma {:induction false} TrimEndSplits(s: string) returns (b: string)
    ensures Blank(b) && s == TrimEnd(s) + b
  {
    b := "";
    if s != "" && IsSpace(s[|s| - 1]) {
      var rest := TrimEndSplits(s[..|s| - 1]);
      b := rest + [s[|s| - 1]];
    }
  }

  lemma {:induction false} SplitNext(s: string, c: char)
    requires c != ','
    ensures var parts := Split(s); Split(s + [c]) == parts[..|parts| - 1] + [parts[|parts| - 1] + [c]]
  {
    if s != "" {
      assert (s + [c])[1..] == s[1..] + [c] && (s + [c])[0] == s[0];
      SplitNext(s[1..], c);
      var rest, more := Split(s[1..]), Split(s[1..] + [c]);
      assert more == rest[..|rest| - 1] + [rest[|rest| - 1] + [c]];
      if s[0] == ',' {
        assert Split(s) == [""] + rest && Split(s + [c]) == [""] + more;
      } else if |rest| == 1 {
        assert more == [rest[0] + [c]];
        assert [s[0]] + (rest[0] + [c]) == [s[0]] + rest[0] + [c];
      } else {
        assert more[0] == rest[0];
        assert Split(s) == [[s[0]] + rest[0]] + rest[1..] && Split(s + [c]) == [[s[0]] + rest[0]] + more[1..];
      }
    } else {
      assert "" + [c] == [c] && [c][1..] == "";
      assert Split([c]) == [[c] + ""] && Split("") == [""];
      assert [c] + "" == "" + [c];
    }
  }

  lemma {:induction false} CleanAppend(parts: seq<string>, p: string)
    ensures Clean(parts + [p]) == Clean(parts) + (if Trim(p) == "" then [] else [Trim(p)])
  {
    if parts == [] {
      assert [] + [p] == [p];
    } else {
      assert (parts + [p])[1..] == parts[1..] + [p];
      CleanAppend(parts[1..], p);
    }
  }

  lemma ParseBlankBefore(c: char, s: string)
    requires IsSpace(c)
    ensures ParseList([c] + s) == ParseList(s)
  {
    assert ([c] + s)[1..] == s;
    var rest := Split(s);
    assert Trim([c] + rest[0]) == Trim(rest[0]) by {
      TrimPadded([c], rest[0], "");
      assert [c] + rest[0] + "" == [c] + rest[0];
    }
    assert ([[c] + rest[0]] + rest[1..])[1..] == rest[1..];
  }

  lemma ParseBlankAfter(s: string, c: char)
    requires IsSpace(c)
    ensures ParseList(s + [c]) == ParseList(s)
  {
    var parts := Split(s);
    var init, last := parts[..|parts| - 1], parts[|parts| - 1];
    SplitNext(s, c);
    assert parts == init + [last];
    assert Trim(last + [c]) == Trim(last) by {
      TrimPadded("", last, [c]);
      assert "" + last + [c] == last + [c];
    }
    CleanAppend(init, last);
    CleanAppend(init, last + [c]);
  }

  lemma {:induction false} ParseBlanksBefore(a: string, s: string)
    requires Blank(a)
    ensures ParseList(a + s) == ParseList(s)
  {
    if a == "" {
      assert a + s == s;
    } else {
      assert a + s == [a[0]] + (a[1..] + s) && a[0] in a;
      ParseBlankBefore(a[0], a[1..] + s);
      ParseBlanksBefore(a[1..], s);
    }
  }

  lemma {:induction false} ParseBlanksAfter(s: string, b: string)
    requires Blank(b)
    ensures ParseList(s + b) == ParseList(s)
  {
    if b == "" {
      assert s + b == s;
    } else {
      assert s + b == s + b[..|b| - 1] + [b[|b| - 1]] && b[|b| - 1] in b;
      ParseBlankAfter(s + b[..|b| - 1], b[|b| - 1]);
      ParseBlanksAfter(s, b[..|b| - 1]);
    }
  }

  /** Trimming the whole value first, as the reader does, changes no entry. */
  lemma ParseTrimmed(raw: string)
    ensures ParseList(Trim(raw)) == ParseList(raw)
  {
    var a := TrimStartSplits(raw);
    var b := TrimEndSplits(TrimStart(raw));
    ParseBlanksBefore(a, TrimStart(raw));
    ParseBlanksAfter(Trim(raw), b);
  }

  /** The elements that are not empty, in order. */
  function NotEmpty(xs: seq<string>): seq<string> {
    if xs == [] then [] else (if xs[0] == "" then [] else [xs[0]]) + NotEmpty(xs[1..])
  }

  /** Each entry between its own blanks. */
  function Padded(before: seq<string>, xs: seq<string>, after: seq<string>): seq<string>
    requires |before| == |xs| == |after|
  {
    seq(|xs|, i requires 0 <= i < |xs| => before[i] + xs[i] + after[i])
  }

  lemma {:induction false} CleanPadded(before: seq<string>, xs: seq<string>, after: seq<string>)
    requires |before| == |xs| == |after|
    requires forall i :: 0 <= i < |xs| ==> Blank(before[i]) && Blank(after[i]) && Trimmed(xs[i])
    ensures Clean(Padded(before, xs, after)) == NotEmpty(xs)
  {
    if xs != [] {
      TrimPadded(before[0], xs[0], after[0]);
      TrimTrims(xs[0]);
      assert Padded(before, xs, after)[1..] == Padded(before[1..], xs[1..], after[1..]);
      CleanPadded(before[1..], xs[1..], after[1..]);
    }
  }

  /** A comma list is read as its entries, in order, without the blanks around them and without the empty ones. */
  lemma PaddedList(before: seq<string>, xs: seq<string>, after: seq<string>)
    requires |before| == |xs| == |after| > 0
    requires forall i :: 0 <= i < |xs| ==> Blank(before[i]) && Blank(after[i]) && Trimmed(xs[i]) && ',' !in xs[i]
    ensures ParseList(Join(Padded(before, xs, after))) == NotEmpty(xs)
  {
    assert !IsSpace(',');
    SplitJoin(Padded(before, xs, after));
    CleanPadded(before, xs, after);
  }

  lemma ListVariable(env: Env, name: string)
    ensures OptString(env, name).Some? ==> name in env && ParseList(OptString(env, name).value) == ParseList(env[name])
    ensures OptString(env, name).None? && name in env ==> ParseList(env[name]) == []
  {
    if name in env {
      ParseTrimmed(env[name]);
    }
  }

  /** `name` is set to `v`, blanks around it aside. */
  predicate Is(env: Env, name: string, v: string) { v != "" && name in env && Trim(env[name]) == v }

  /** Not set, or to blanks only. */
  predicate Unset(env: Env, name: string) { name in env ==> Trim(env[name]) == "" }

  lemma LowerAt(s: string, i: nat)
    requires i < |s|
    ensures |Lower(s)| == |s|
    ensures Lower(s)[i] as int == s[i] as int + (if 65 <= s[i] as int <= 90 then 32 else 0)
  {
  }

  /** What a configuration that could be read says, field by field, in terms of the environment. */
  lemma ReadGives(env: Env)
    requires Read(env).Ok?
    ensures var cfg, relays, urls := Read(env).value, "OUTLAY_SHIM_CVM_RELAYS", "OUTLAY_SHIM_PUBLIC_URLS";
      && cfg.relayUrls == (if relays in env && ParseList(env[relays]) != [] then ParseList(env[relays])
                           else ["wss://nostr.wtf"])
      && cfg.publicUrls == (if urls in env then ParseList(env[urls]) else [])
    ensures var e, name := Read(env).value.encryption, "OUTLAY_SHIM_ENCRYPTION_MODE";
      && (e == EncOptional <==> Unset(env, name) || Is(env, name, "optional"))
      && (e == EncDisabled <==> Is(env, name, "disabled"))
      && (e == EncRequired <==> Is(env, name, "required"))
    ensures var g, name := Read(env).value.giftWrap, "OUTLAY_SHIM_GIFT_WRAP_MODE";
      && (g == Ephemeral <==> Unset(env, name) || Is(env, name, "ephemeral"))
      && (g == Persistent <==> Is(env, name, "persistent"))
      && (g == GiftOptional <==> Is(env, name, "optional"))
    ensures var name := "OUTLAY_SHIM_RELAY";
      Read(env).value.enableRelay <==> Unset(env, name) || Lower(Trim(env[name])) in {"true", "1"}
  {
    ListVariable(env, RELAYS);
    ListVariable(env, PUBLIC_URLS);
  }

  /** Which error: that of the first variable, in this order, whose value is none of its own. */
  lemma ReadFailsWith(env: Env)
    ensures var enc := "OUTLAY_SHIM_ENCRYPTION_MODE"; var gift := "OUTLAY_SHIM_GIFT_WRAP_MODE";
      var relay := "OUTLAY_SHIM_RELAY";
      var encBad := !Unset(env, enc) && Trim(env[enc]) !in {"optional", "disabled", "required"};
      var giftBad := !Unset(env, gift) && Trim(env[gift]) !in {"ephemeral", "persistent", "optional"};
      var relayBad := !Unset(env, relay) && Lower(Trim(env[relay])) !in {"true", "1", "false", "0"};
      && (encBad ==> Read(env) == Err(InvalidEncryption(Trim(env[enc]))))
      && (!encBad && giftBad ==> Read(env) == Err(InvalidGiftWrapMode(Trim(env[gift]))))
      && (!encBad && !giftBad && relayBad ==> Read(env) == Err(InvalidBoolean(Lower(Trim(env[relay])))))
      && (Read(env).Ok? <==> !encBad && !giftBad && !relayBad)
  {
  }

  /**
   * A configuration that could be read names at least one relay, all its list
   * entries are trimmed, comma-free and not empty, and its public URL exists:
   * the first explicit one, or the first relay when none is given.
   */
  lemma ReadConfigUsable(env: Env)
    requires Read(env).Ok?
    ensures var cfg := Read(env).value;
      && cfg.relayUrls != [] && Entries(cfg.relayUrls) && Entries(cfg.publicUrls)
      && PublicUrl(cfg) == Some((cfg.publicUrls + cfg.relayUrls)[0])
  {
    match OptString(env, RELAYS) {
      case Some(raw) => ParseListEntries(raw);
      case None =>
    }
    match OptString(env, PUBLIC_URLS) {
      case Some(raw) => ParseListEntries(raw);
      case None =>
    }
    assert Entry("wss://nostr.wtf");
  }
}
