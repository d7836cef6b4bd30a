/**
 Loading the metadata of a provider bundle from disk, and the independent validator of such metadata.

 The file system, the JSON parser, the hash function and the search for secret-like text are parameters.
 */
module BundleLoader {
  import opened Options
  import opened BundlePaths
  import EventLog
  import Text = ProviderText
  import Events = ProviderEvents

  type Byte = EventLog.Byte

  datatype Digest = Digest(algorithm: string, value: string)

  datatype Asset = Asset(path: string, digest: Digest)

  const NO_DIGEST := Digest("", "")

  datatype Status = NoStatus | DeclaredValid | DeclaredUnavailable | DeclaredInvalid

  datatype Metadata = Metadata(
    pluginId: string, generation: int, bundleRoot: string, manifestPath: string, assets: seq<Asset>,
    manifestDigest: Digest, schemaVersion: string, status: Status, errorCode: string, errorMessage: string,
    observedAt: Option<int>, correlation: string)

  datatype LoadOptions = LoadOptions(
    pluginId: string, generation: int, expectedGeneration: int, bundleRoot: string, manifestPath: string,
    manifestFilename: string, assetPaths: seq<string>, observedAt: Option<int>, correlation: string)

  datatype FileRead = Content(bytes: seq<Byte>) | Missing | Unreadable

  datatype Json = JNull | JString(text: string) | JInt(value: int) | JOther

  /** What the loader asks of its surroundings. */
  datatype World = World(
    resolveRoot: string -> Option<seq<string>>,
    resolveLinks: seq<string> -> Option<seq<string>>,
    read: string -> FileRead,
    hash: seq<Byte> -> seq<Byte>,
    parse: seq<Byte> -> Option<map<string, Json>>,
    secretLike: string -> bool)

  /** Resolved paths are clean, a hash has 32 bytes, and the empty text is not secret-like. */
  ghost predicate Sane(w: World) {
    && (forall p :: w.resolveRoot(p).Some? ==> IsPath(w.resolveRoot(p).value))
    && (forall cs :: w.resolveLinks(cs).Some? ==> IsPath(w.resolveLinks(cs).value))
    && (forall b :: |w.hash(b)| == 32)
    && !w.secretLike("")
  }

  // ----- digests -----

  predicate IsHexDigit(c: char) {
    '0' <= c <= '9' || 'a' <= c <= 'f' || 'A' <= c <= 'F'
  }

  function HexDigit(n: int): (c: char)
    requires 0 <= n < 16
    ensures IsHexDigit(c)
  {
    if n < 10 then ('0' as int + n) as char else ('a' as int + (n - 10)) as char
  }

  function Hex(bytes: seq<Byte>): (r: string)
    ensures |r| == 2 * |bytes| && forall i :: 0 <= i < |r| ==> IsHexDigit(r[i])
  {
    if bytes == [] then "" else [HexDigit(bytes[0] / 16), HexDigit(bytes[0] % 16)] + Hex(bytes[1..])
  }

  function HexValue(c: char): (n: int)
    requires '0' <= c <= '9' || 'a' <= c <= 'f'
    ensures 0 <= n < 16
  {
    if c <= '9' then c as int - '0' as int else c as int - 'a' as int + 10
  }

  /** The digits give the bytes back, in order, high digit first. */
  lemma {:induction false} HexDecodes(bytes: seq<Byte>, i: nat)
    requires i < |bytes|
    ensures
      var r := Hex(bytes);
      && (forall k :: 0 <= k < |r| ==> '0' <= r[k] <= '9' || 'a' <= r[k] <= 'f')
      && bytes[i] == 16 * HexValue(r[2 * i]) + HexValue(r[2 * i + 1])
  {
    var head, tail := [HexDigit(bytes[0] / 16), HexDigit(bytes[0] % 16)], Hex(bytes[1..]);
    assert Hex(bytes) == head + tail;
    if |bytes| > 1 {
      HexDecodes(bytes[1..], if i > 0 then i - 1 else 0);
    }
  }

  function DigestOf(w: World, bytes: seq<Byte>): Digest {
    Digest("sha256", Hex(w.hash(bytes)))
  }

  function LowerAll(s: string): string {
    seq(|s|, i requires 0 <= i < |s| => Text.Lower(s[i]))
  }

  predicate ValidDigest(d: Digest) {
    var v := Text.TrimSpace(d.value);
    LowerAll(Text.TrimSpace(d.algorithm)) == "sha256" && |v| == 64 && forall i :: 0 <= i < |v| ==> IsHexDigit(v[i])
  }

  // ----- the validator -----

  predicate Blank(s: string) {
    Text.TrimSpace(s) == ""
  }

  /** Rejects malformed metadata and, if a generation is expected, metadata of another one. */
  predicate Validates(m: Metadata, expected: Option<int>, secretLike: string -> bool) {
    && Events.ValidPluginId(m.pluginId)
    && m.generation > 0
    && (expected.Some? ==> m.generation == expected.value)
    && !Blank(m.bundleRoot)
    && !Blank(m.manifestPath)
    && ValidDigest(m.manifestDigest)
    && !m.status.NoStatus?
    && !Blank(m.schemaVersion)
    && m.observedAt.Some?
    && !Blank(m.correlation)
    && !secretLike(m.errorCode) && !secretLike(m.errorMessage)
    && (forall i :: 0 <= i < |m.assets| ==> !Blank(m.assets[i].path) && ValidDigest(m.assets[i].digest))
  }

  /** The validator as the program runs it, check by check and with an early exit from the loop over the assets. */
  method Validate(m: Metadata, expected: Option<int>, secretLike: string -> bool) returns (ok: bool)
    ensures ok == Validates(m, expected, secretLike)
  {
    if !Events.ValidPluginId(m.pluginId) || m.generation <= 0 {
      return false;
    }
    if expected.Some? && m.generation != expected.value {
      return false;
    }
    if Text.TrimSpace(m.bundleRoot) == "" || Text.TrimSpace(m.manifestPath) == "" {
      return false;
    }
    var digest := ValidateDigest(m.manifestDigest);
    if !digest || m.status.NoStatus? {
      return false;
    }
    if Text.TrimSpace(m.schemaVersion) == "" || m.observedAt.None? || Text.TrimSpace(m.correlation) == "" {
      return false;
    }
    if secretLike(m.errorCode) || secretLike(m.errorMessage) {
      return false;
    }
    for i := 0 to |m.assets|
      invariant forall j :: 0 <= j < i ==> !Blank(m.assets[j].path) && ValidDigest(m.assets[j].digest)
    {
      digest := ValidateDigest(m.assets[i].digest);
      if Text.TrimSpace(m.assets[i].path) == "" || !digest {
        return false;
      }
    }
    return true;
  }

  method ValidateDigest(d: Digest) returns (ok: bool)
    ensures ok == ValidDigest(d)
  {
    var v := Text.TrimSpace(d.value);
    if LowerAll(Text.TrimSpace(d.algorithm)) != "sha256" || |v| != 64 {
      return false;
    }
    for i := 0 to |v|
      invariant forall j :: 0 <= j < i ==> IsHexDigit(v[j])
    {
      if !('0' <= v[i] <= '9' || 'a' <= v[i] <= 'f' || 'A' <= v[i] <= 'F') {
        return false;
      }
    }
    return true;
  }

  // ----- the manifest -----

  datatype Identity = Identity(schemaVersion: string, pluginId: string, generation: Option<int>)

  /** The first of the keys that is present decides; null leaves the default. */
  function FirstString(raw: map<string, Json>, keys: seq<string>): Option<string> {
    if keys == [] then Some("")
    else if keys[0] !in raw then FirstString(raw, keys[1..])
    else
      match raw[keys[0]]
      case JString(text) => Some(text)
      case JNull => Some("")
      case _ => None
  }

  /** Result: None is an error, Some(None) no such key. */
  function FirstInt64(raw: map<string, Json>, keys: seq<string>): Option<Option<int>> {
    if keys == [] then Some(None)
    else if keys[0] !in raw then FirstInt64(raw, keys[1..])
    else
      match raw[keys[0]]
      case JInt(n) => if -0x8000_0000_0000_0000 <= n < 0x8000_0000_0000_0000 then Some(Some(n)) else None
      case JNull => Some(Some(0))
      case _ => None
  }

  const SCHEMA_KEYS := ["schema_version", "schemaVersion"]
  const ID_KEYS := ["plugin_id", "pluginId", "plugin"]
  const GENERATION_KEYS := ["plugin_generation", "pluginGeneration", "generation"]

  function ParseIdentity(w: World, bytes: seq<Byte>): (r: Option<Identity>)
    ensures r.Some? ==> !Blank(r.value.schemaVersion)
  {
    var raw := w.parse(bytes);
    if raw.None? then None
    else
      var schema := FirstString(raw.value, SCHEMA_KEYS);
      var id := FirstString(raw.value, ID_KEYS);
      var gen := FirstInt64(raw.value, GENERATION_KEYS);
      if schema.None? || Blank(schema.value) || id.None? || gen.None? then None
      else Some(Identity(schema.value, id.value, gen.value))
  }

  /** The first of the keys that is present. */
  predicate IsFirstPresent(raw: map<string, Json>, keys: seq<string>, i: nat) {
    i < |keys| && keys[i] in raw && forall j :: 0 <= j < i ==> keys[j] !in raw
  }

  predicate NonePresent(raw: map<string, Json>, keys: seq<string>) {
    forall j :: 0 <= j < |keys| ==> keys[j] !in raw
  }

  /** A value as a text: null is the empty one. */
  function StringOf(j: Json): Option<string> {
    match j
    case JString(text) => Some(text)
    case JNull => Some("")
    case JInt(_) => None
    case JOther => None
  }

  /** The text that a manifest gives under the first of these keys it has; no key at all is the empty text. */
  ghost predicate TextIs(raw: map<string, Json>, keys: seq<string>, text: string) {
    || (NonePresent(raw, keys) && text == "")
    || exists i: nat :: IsFirstPresent(raw, keys, i) && StringOf(raw[keys[i]]) == Some(text)
  }

  predicate IsInt64(n: int) {
    -0x8000_0000_0000_0000 <= n <= 0x7FFF_FFFF_FFFF_FFFF
  }

  /** A value as a number of 64 bits: null is 0. */
  function NumberOf(j: Json): Option<int> {
    match j
    case JInt(n) => if IsInt64(n) then Some(n) else None
    case JNull => Some(0)
    case JString(_) => None
    case JOther => None
  }

  /** The number under the first of these keys that is there; no key at all is none. */
  ghost predicate NumberIs(raw: map<string, Json>, keys: seq<string>, number: Option<int>) {
    || (NonePresent(raw, keys) && number.None?)
    || exists i: nat :: IsFirstPresent(raw, keys, i) && number.Some? && NumberOf(raw[keys[i]]) == number
  }

  /** What a manifest says, read off its parsed form. */
  ghost predicate Says(w: World, bytes: seq<Byte>, id: Identity) {
    && w.parse(bytes).Some?
    && Text.TrimSpace(id.schemaVersion) != ""
    && var raw := w.parse(bytes).value;
       && TextIs(raw, SCHEMA_KEYS, id.schemaVersion)
       && TextIs(raw, ID_KEYS, id.pluginId)
       && NumberIs(raw, GENERATION_KEYS, id.generation)
  }

  /** Some key is the first one present, or none is. */
  lemma {:induction false} FirstPresent(raw: map<string, Json>, keys: seq<string>) returns (i: nat)
    ensures if i < |keys| then IsFirstPresent(raw, keys, i) && !NonePresent(raw, keys) else NonePresent(raw, keys)
    ensures forall j: nat :: IsFirstPresent(raw, keys, j) ==> j == i && i < |keys|
  {
    i := 0;
    while i < |keys| && keys[i] !in raw
      invariant i <= |keys| && forall j :: 0 <= j < i ==> keys[j] !in raw
    {
      i := i + 1;
    }
  }

  /** The first present key decides, whatever the later ones hold. */
  lemma {:induction false} FirstKeyDecides(raw: map<string, Json>, keys: seq<string>, i: nat)
    requires IsFirstPresent(raw, keys, i)
    ensures FirstString(raw, keys) == StringOf(raw[keys[i]])
    ensures FirstInt64(raw, keys) ==
            if NumberOf(raw[keys[i]]).None? then None else Some(NumberOf(raw[keys[i]]))
  {
    if i > 0 {
      assert keys[0] !in raw;
      assert forall j :: 0 <= j < i - 1 ==> keys[1..][j] == keys[j + 1];
      FirstKeyDecides(raw, keys[1..], i - 1);
    }
  }

  lemma {:induction false} NoKeyPresent(raw: map<string, Json>, keys: seq<string>)
    requires NonePresent(raw, keys)
    ensures FirstString(raw, keys) == Some("") && FirstInt64(raw, keys) == Some(None)
  {
    if keys != [] {
      assert forall j :: 0 <= j < |keys| - 1 ==> keys[1..][j] == keys[j + 1];
      NoKeyPresent(raw, keys[1..]);
    }
  }

  lemma FirstValuesExactly(raw: map<string, Json>, keys: seq<string>, text: string, number: Option<int>)
    ensures FirstString(raw, keys) == Some(text) <==> TextIs(raw, keys, text)
    ensures FirstInt64(raw, keys) == Some(number) <==> NumberIs(raw, keys, number)
  {
    hide NonePresent, IsFirstPresent, FirstString, FirstInt64;
    var i := FirstPresent(raw, keys);
    if i < |keys| {
      FirstKeyDecides(raw, keys, i);
    } else {
      NoKeyPresent(raw, keys);
    }
  }

  /** The identity is parsed exactly as the manifest says it, and every other manifest is refused. */
  lemma ParseIdentityExactly(w: World, bytes: seq<Byte>, id: Identity)
    ensures ParseIdentity(w, bytes) == Some(id) <==> Says(w, bytes, id)
  {
    hide FirstString, FirstInt64, TextIs, NumberIs;
    if w.parse(bytes).Some? {
      var raw := w.parse(bytes).value;
      FirstValuesExactly(raw, SCHEMA_KEYS, id.schemaVersion, None);
      FirstValuesExactly(raw, ID_KEYS, id.pluginId, None);
      FirstValuesExactly(raw, GENERATION_KEYS, "", id.generation);
    }
  }

  /** A null generation agrees with no request that is loaded at all, while a missing one agrees with every one. */
  lemma NullGenerationContradicts(w: World, bytes: seq<Byte>, id: Identity, i: nat, o: LoadOptions)
    requires Says(w, bytes, id) && LoadIdentityOk(o)
    ensures
      var raw := w.parse(bytes).value;
      IsFirstPresent(raw, GENERATION_KEYS, i) && raw[GENERATION_KEYS[i]].JNull? ==> !IdentityAgrees(id, o)
    ensures NonePresent(w.parse(bytes).value, GENERATION_KEYS) && id.pluginId == "" ==> IdentityAgrees(id, o)
  {
    hide TextIs;
    var first := FirstPresent(w.parse(bytes).value, GENERATION_KEYS);
  }

  /** A manifest may leave out its identity, but must not contradict the request. */
  predicate IdentityAgrees(id: Identity, o: LoadOptions) {
    && (id.pluginId != "" ==> id.pluginId == o.pluginId)
    && (id.generation.Some? ==> id.generation.value == o.generation)
  }

  // ----- resolving paths -----

  /** The absolute path of a declared one, if neither it nor what it links to leaves the root. */
  function ResolvePath(w: World, root: seq<string>, p: string): (r: Option<seq<string>>)
    requires IsPath(root) && Sane(w)
    ensures r.Some? ==> IsPath(r.value)
  {
    if Blank(p) then None
    else
      var cs := Absolute(root, p);
      if !PathWithinRoot(Render(root), Render(cs)) then None
      else
        var target := w.resolveLinks(cs);
        if target.Some? && !PathWithinRoot(Render(root), Render(target.value)) then None else Some(cs)
  }

  /** Containment, component by component, of a path and of what it links to. */
  ghost predicate Contained(w: World, root: seq<string>, cs: seq<string>) {
    root <= cs && (w.resolveLinks(cs).Some? ==> root <= w.resolveLinks(cs).value)
  }

  /** A path is resolved exactly if it stays inside the root, name by name, before and after following links. */
  lemma ResolvesExactlyInside(w: World, root: seq<string>, p: string)
    requires IsPath(root) && Sane(w)
    ensures ResolvePath(w, root, p).Some? <==> !Blank(p) && Contained(w, root, Absolute(root, p))
    ensures ResolvePath(w, root, p).Some? ==> ResolvePath(w, root, p).value == Absolute(root, p)
  {
    hide PathWithinRoot;
    var cs := Absolute(root, p);
    WithinRootExactly(root, cs);
    if w.resolveLinks(cs).Some? {
      WithinRootExactly(root, w.resolveLinks(cs).value);
    }
  }

  lemma ResolvedIsInside(w: World, root: seq<string>, p: string)
    requires IsPath(root) && Sane(w) && ResolvePath(w, root, p).Some?
    ensures Inside(w, root, Render(ResolvePath(w, root, p).value))
  {
    hide ResolvePath;
    ResolvesExactlyInside(w, root, p);
    CleanUndoesRender(ResolvePath(w, root, p).value);
  }

  function ManifestName(o: LoadOptions): string {
    if !Blank(o.manifestPath) then o.manifestPath
    else if !Blank(o.manifestFilename) then Text.TrimSpace(o.manifestFilename)
    else "manifest.json"
  }

  /** The path if one is given, else the file name without blanks around it, else the default name. */
  lemma ManifestNameExactly(o: LoadOptions)
    ensures Text.TrimSpace(o.manifestPath) != "" ==> ManifestName(o) == o.manifestPath
    ensures Text.TrimSpace(o.manifestPath) == "" && Text.TrimSpace(o.manifestFilename) != "" ==>
      ManifestName(o) == Text.TrimSpace(o.manifestFilename)
    ensures Text.TrimSpace(o.manifestPath) == "" == Text.TrimSpace(o.manifestFilename) ==>
      ManifestName(o) == "manifest.json"
  {
  }

  // ----- loading -----

  predicate LoadIdentityOk(o: LoadOptions) {
    Events.ValidPluginId(o.pluginId) && o.generation > 0 && o.observedAt.Some? && !Blank(o.correlation)
  }

  function Blueprint(o: LoadOptions): Metadata {
    Metadata(o.pluginId, o.generation, o.bundleRoot, "", [], NO_DIGEST, "", NoStatus, "", "",
             o.observedAt, o.correlation)
  }

  function RedactSecretLike(w: World, s: string): string {
    if w.secretLike(s) then "[redacted]" else s
  }

  function Fail(w: World, m: Metadata, status: Status, code: string, message: string): Metadata {
    m.(status := status, errorCode := RedactSecretLike(w, code), errorMessage := RedactSecretLike(w, message))
  }

  /** Asset i of a load is the declared path i, resolved inside the root, with the digest of its content. */
  ghost predicate AssetMatches(w: World, root: seq<string>, declared: string, a: Asset)
    requires IsPath(root) && Sane(w)
  {
    var cs := ResolvePath(w, root, declared);
    && cs.Some?
    && a.path == Render(cs.value)
    && w.read(a.path).Content?
    && a.digest == DigestOf(w, w.read(a.path).bytes)
  }

  ghost predicate PrefixMatches(w: World, root: seq<string>, declared: seq<string>, assets: seq<Asset>)
    requires IsPath(root) && Sane(w)
  {
    |assets| <= |declared| && forall i :: 0 <= i < |assets| ==> AssetMatches(w, root, declared[i], assets[i])
  }

  /** The asset at which a load stopped: not resolvable, or resolvable but not readable. */
  ghost predicate Culprit(w: World, root: seq<string>, declared: string, a: Asset)
    requires IsPath(root) && Sane(w)
  {
    var cs := ResolvePath(w, root, declared);
    && a.digest == NO_DIGEST
    && (if cs.None? then a.path == declared else a.path == Render(cs.value) && !w.read(a.path).Content?)
  }

  /** The loop over the declared assets. */
  method LoadAssets(w: World, root: seq<string>, declared: seq<string>)
    returns (assets: seq<Asset>, failed: bool, missing: bool, resolved: bool)
    requires IsPath(root) && Sane(w)
    ensures !failed ==> |assets| == |declared| && PrefixMatches(w, root, declared, assets)
    ensures failed ==>
      && 0 < |assets| <= |declared|
      && PrefixMatches(w, root, declared, assets[..|assets| - 1])
      && Culprit(w, root, declared[|assets| - 1], assets[|assets| - 1])
      && (resolved <==> ResolvePath(w, root, declared[|assets| - 1]).Some?)
      && (resolved ==> (missing <==> w.read(assets[|assets| - 1].path).Missing?))
  {
    hide ResolvePath, Render, DigestOf, IsPath;
    assets, failed, missing, resolved := [], false, false, true;
    var i := 0;
    while i < |declared|
      invariant 0 <= i <= |declared| && |assets| == i
      invariant PrefixMatches(w, root, declared, assets)
    {
      ghost var before := assets;
      var path := ResolvePath(w, root, declared[i]);
      if path.None? {
        assets := assets + [Asset(declared[i], NO_DIGEST)];
        assert assets[..|assets| - 1] == before;
        return assets, true, false, false;
      }
      var text := Render(path.value);
      match w.read(text) {
        case Content(bytes) =>
          assets := assets + [Asset(text, DigestOf(w, bytes))];
        case Missing =>
          assets := assets + [Asset(text, NO_DIGEST)];
          assert assets[..|assets| - 1] == before;
          return assets, true, true, true;
        case Unreadable =>
          assets := assets + [Asset(text, NO_DIGEST)];
          assert assets[..|assets| - 1] == before;
          return assets, true, false, true;
      }
      i := i + 1;
    }
  }

  /** What a load that is refused before any look at the file system returns. */
  function Refused(w: World, o: LoadOptions, inert: string): Metadata {
    if !LoadIdentityOk(o) then
      Fail(w, Blueprint(o).(manifestPath := inert), DeclaredInvalid,
           "malformed_load_identity", "provider bundle load identity is invalid")
    else
      Fail(w, Blueprint(o).(manifestPath := inert), DeclaredInvalid,
           "stale_generation", "plugin generation does not match expected generation")
  }

  predicate RefusedUnseen(o: LoadOptions) {
    !LoadIdentityOk(o) || (o.expectedGeneration > 0 && o.generation != o.expectedGeneration)
  }

  /** The manifest can be used: inside the root, readable, with an identity that agrees with the request. */
  ghost predicate ManifestUsable(
    w: World, o: LoadOptions, root: seq<string>, path: string, bytes: seq<Byte>, id: Identity)
    requires IsPath(root) && Sane(w)
  {
    && ResolvePath(w, root, ManifestName(o)).Some?
    && path == Render(ResolvePath(w, root, ManifestName(o)).value)
    && w.read(path) == Content(bytes)
    && Says(w, bytes, id)
    && (id.pluginId == "" || id.pluginId == o.pluginId)
    && (id.generation == None || id.generation == Some(o.generation))
  }

  /** Outside the root, absent, there but unreadable, or readable and not an identity that agrees. */
  ghost function ManifestCode(w: World, root: seq<string>, name: string): string
    requires IsPath(root) && Sane(w)
  {
    var cs := ResolvePath(w, root, name);
    if cs.None? then "invalid_manifest_path"
    else
      match w.read(Render(cs.value))
      case Missing => "missing_manifest"
      case Unreadable => "unreadable_manifest"
      case Content(_) => "malformed_manifest_identity"
  }

  /** The manifest part of a load: metadata to go on with, or the final metadata of a load that stops here. */
  method LoadManifest(w: World, o: LoadOptions, root: seq<string>, blank: Metadata, inert: string)
    returns (r: Result<Metadata, Metadata>)
    requires Sane(w) && IsPath(root)
    ensures r.Ok? <==> exists path, bytes, id :: ManifestUsable(w, o, root, path, bytes, id)
    ensures forall path, bytes, id :: ManifestUsable(w, o, root, path, bytes, id) ==>
      r == Ok(blank.(manifestPath := path, manifestDigest := DigestOf(w, bytes), schemaVersion := id.schemaVersion))
    ensures r.Err? ==>
      && r.error.assets == blank.assets && r.error.pluginId == blank.pluginId && r.error.generation == blank.generation
      && (r.error.status.DeclaredUnavailable? || r.error.status.DeclaredInvalid?) && r.error.errorCode != ""
    ensures r.Err? ==>
      (r.error.status.DeclaredUnavailable? <==>
       && ResolvePath(w, root, ManifestName(o)).Some?
       && !w.read(Render(ResolvePath(w, root, ManifestName(o)).value)).Content?)
    ensures r.Err? ==> r.error.errorCode == RedactSecretLike(w, ManifestCode(w, root, ManifestName(o)))
  {
    hide ResolvePath, Blank, ParseIdentity, Says, Render, DigestOf, ManifestName, IsPath;
    var m := blank;
    var manifest := ResolvePath(w, root, ManifestName(o));
    if manifest.None? {
      return Err(Fail(w, m.(manifestPath := inert), DeclaredInvalid,
                      "invalid_manifest_path", "manifest path is outside bundle root"));
    }
    m := m.(manifestPath := Render(manifest.value));
    var read := w.read(m.manifestPath);
    if !read.Content? {
      var code := if read.Missing? then "missing_manifest" else "unreadable_manifest";
      return Err(Fail(w, m, DeclaredUnavailable, code, "manifest is unavailable"));
    }
    m := m.(manifestDigest := DigestOf(w, read.bytes));
    var identity := ParseIdentity(w, read.bytes);
    forall id ensures identity == Some(id) <==> Says(w, read.bytes, id) {
      ParseIdentityExactly(w, read.bytes, id);
    }
    if identity.None? {
      return Err(Fail(w, m, DeclaredInvalid, "malformed_manifest_identity", "manifest identity is invalid"));
    }
    if !IdentityAgrees(identity.value, o) {
      var message := if identity.value.pluginId != "" && identity.value.pluginId != o.pluginId
                     then "manifest plugin id does not match" else "manifest plugin generation does not match";
      return Err(Fail(w, m, DeclaredInvalid, "malformed_manifest_identity", message));
    }
    assert ManifestUsable(w, o, root, m.manifestPath, read.bytes, identity.value);
    return Ok(m.(schemaVersion := identity.value.schemaVersion));
  }

  ghost predicate AssetUsable(w: World, root: seq<string>, declared: string)
    requires IsPath(root) && Sane(w)
  {
    var cs := ResolvePath(w, root, declared);
    cs.Some? && w.read(Render(cs.value)).Content?
  }

  /** Everything that the request names is there, inside the root and consistent. */
  ghost predicate Loadable(w: World, o: LoadOptions)
    requires Sane(w)
  {
    && Events.ValidPluginId(o.pluginId) && o.generation > 0 && o.observedAt.Some? && Text.TrimSpace(o.correlation) != ""
    && (o.expectedGeneration <= 0 || o.generation == o.expectedGeneration)
    && Text.TrimSpace(o.bundleRoot) != ""
    && w.resolveRoot(o.bundleRoot).Some?
    && var root := w.resolveRoot(o.bundleRoot).value;
       && (exists path, bytes, id :: ManifestUsable(w, o, root, path, bytes, id))
       && (forall i :: 0 <= i < |o.assetPaths| ==> AssetUsable(w, root, o.assetPaths[i]))
  }

  /** What an accepted load returned: every path and digest that the request names, as found. */
  ghost predicate AsDeclared(w: World, o: LoadOptions, m: Metadata)
    requires Sane(w)
  {
    && w.resolveRoot(o.bundleRoot).Some?
    && var root := w.resolveRoot(o.bundleRoot).value;
       && m.bundleRoot == Render(root)
       && m.observedAt == o.observedAt && m.correlation == o.correlation
       && (exists bytes, id :: ManifestUsable(w, o, root, m.manifestPath, bytes, id)
             && m.manifestDigest == DigestOf(w, bytes) && m.schemaVersion == id.schemaVersion)
       && |m.assets| == |o.assetPaths|
       && PrefixMatches(w, root, o.assetPaths, m.assets)
       && Inside(w, root, m.manifestPath)
       && (forall i :: 0 <= i < |m.assets| ==> Inside(w, root, m.assets[i].path))
  }

  /** The text of a path that stays inside the root, component by component, before and after links are followed. */
  ghost predicate Inside(w: World, root: seq<string>, path: string) {
    && path != "" && path[0] == SLASH
    && var cs := Clean(Split(path));
       Render(cs) == path && Contained(w, root, cs)
  }

  /** What a load that stopped at an asset returned: the assets before it, and that one. */
  ghost predicate StoppedAtAsset(w: World, o: LoadOptions, m: Metadata)
    requires Sane(w)
  {
    && w.resolveRoot(o.bundleRoot).Some?
    && 0 < |m.assets| <= |o.assetPaths|
    && var root, k := w.resolveRoot(o.bundleRoot).value, |m.assets| - 1;
       && PrefixMatches(w, root, o.assetPaths, m.assets[..k])
       && Culprit(w, root, o.assetPaths[k], m.assets[k])
       && (m.status.DeclaredInvalid? <==> ResolvePath(w, root, o.assetPaths[k]).None?)
       && m.errorCode == RedactSecretLike(w, StopCode(w, root, o.assetPaths[k]))
  }

  /** Outside the root, absent, or there but unreadable. */
  ghost function StopCode(w: World, root: seq<string>, declared: string): string
    requires IsPath(root) && Sane(w)
  {
    var cs := ResolvePath(w, root, declared);
    if cs.None? then "invalid_lua_asset_path"
    else if w.read(Render(cs.value)).Missing? then "missing_lua_asset"
    else "unreadable_lua_asset"
  }

  /**
   Load a bundle. `inert` is the manifest path reported when the manifest was not resolved.

   The verdict declared_valid is given exactly to the loadable bundles, and it is earned: the metadata passes
   the independent validator for the requested generation, and its assets are the declared ones, one for one
   and in order. Every other verdict carries an error, and at most a prefix of the assets with the one at
   which loading stopped.
   */
  method LoadProviderBundleMetadata(w: World, o: LoadOptions, inert: string) returns (m: Metadata)
    requires Sane(w)
    ensures !m.status.NoStatus? && m.pluginId == o.pluginId && m.generation == o.generation
    ensures RefusedUnseen(o) ==> m == Refused(w, o, inert)
    ensures m.status.DeclaredValid? <==> Loadable(w, o)
    ensures m.status.DeclaredValid? <==> m.errorCode == ""
    ensures m.status.DeclaredValid? ==> Validates(m, Some(o.generation), w.secretLike) && AsDeclared(w, o, m)
    ensures m.assets != [] && !m.status.DeclaredValid? ==> StoppedAtAsset(w, o, m)
    ensures !RefusedUnseen(o) && (Blank(o.bundleRoot) || w.resolveRoot(o.bundleRoot).None?) ==>
      m.status.DeclaredUnavailable? && m.errorCode == RedactSecretLike(w, "missing_bundle_root") && m.assets == []
  {
    hide ResolvePath, Text.TrimSpace, Validates, Render, DigestOf, Events.ValidPluginId, ManifestUsable, AssetUsable,
         ManifestName, IsPath, AsDeclared, StoppedAtAsset;
    m := Blueprint(o);
    if RefusedUnseen(o) {
      return Refused(w, o, inert);
    }
    var prepared := w.resolveRoot(o.bundleRoot);
    if Blank(o.bundleRoot) || prepared.None? {
      return Fail(w, m.(manifestPath := inert), DeclaredUnavailable,
                  "missing_bundle_root", "bundle root is unavailable");
    }
    var root := prepared.value;
    m := m.(bundleRoot := Render(root));
    var manifest := LoadManifest(w, o, root, m, inert);
    if manifest.Err? {
      return manifest.error;
    }
    ghost var path, bytes, id :| ManifestUsable(w, o, root, path, bytes, id);
    m := LoadDeclared(w, o, root, manifest.value, path, bytes, id);
  }

  /** The rest of a load, once the manifest is found good. */
  method LoadDeclared(
    w: World, o: LoadOptions, root: seq<string>, found: Metadata,
    ghost path: string, ghost bytes: seq<Byte>, ghost id: Identity)
    returns (m: Metadata)
    requires Sane(w) && IsPath(root) && w.resolveRoot(o.bundleRoot) == Some(root) && !RefusedUnseen(o)
    requires ManifestUsable(w, o, root, path, bytes, id)
    requires found == Metadata(o.pluginId, o.generation, Render(root), path, [], DigestOf(w, bytes),
                               id.schemaVersion, NoStatus, "", "", o.observedAt, o.correlation)
    ensures !m.status.NoStatus? && m.pluginId == o.pluginId && m.generation == o.generation
    ensures m.status.DeclaredValid? <==> forall i :: 0 <= i < |o.assetPaths| ==> AssetUsable(w, root, o.assetPaths[i])
    ensures m.status.DeclaredValid? <==> m.errorCode == ""
    ensures m.status.DeclaredValid? ==> Validates(m, Some(o.generation), w.secretLike) && AsDeclared(w, o, m)
    ensures !m.status.DeclaredValid? ==> StoppedAtAsset(w, o, m)
  {
    hide ResolvePath, ValidDigest, Text.TrimSpace, PrefixMatches, Culprit, Validates, Render, DigestOf,
         Events.ValidPluginId, ManifestUsable, AssetUsable, ManifestName, IsPath, Inside, RefusedUnseen;
    var assets, failed, missing, resolved := LoadAssets(w, root, o.assetPaths);
    m := found.(assets := assets);
    if failed {
      StoppedIsNotUsable(w, root, o.assetPaths[|assets| - 1], assets[|assets| - 1]);
      if !resolved {
        return Fail(w, m, DeclaredInvalid, "invalid_lua_asset_path", "lua asset path is outside bundle root");
      }
      var code := if missing then "missing_lua_asset" else "unreadable_lua_asset";
      return Fail(w, m, DeclaredUnavailable, code, "lua asset is unavailable");
    }
    m := m.(status := DeclaredValid);
    LoadedValidates(w, o, root, m, path, bytes, id);
  }

  // ----- why the validator agrees -----

  lemma {:induction false} NoSpaceToTrim(s: string)
    requires s != "" && !Text.IsSpace(s[0]) && !Text.IsSpace(s[|s| - 1])
    ensures Text.TrimSpace(s) == s
  {
  }

  lemma DigestIsValid(w: World, bytes: seq<Byte>)
    requires Sane(w)
    ensures ValidDigest(DigestOf(w, bytes))
  {
    var v := Hex(w.hash(bytes));
    assert IsHexDigit(v[0]) && IsHexDigit(v[63]);
    NoSpaceToTrim(v);
    NoSpaceToTrim("sha256");
    assert LowerAll("sha256") == "sha256";
  }

  lemma {:induction false} TrimRightKeepsStart(s: string)
    requires s != "" && !Text.IsSpace(s[0])
    ensures Text.TrimRight(s) != ""
  {
    if Text.IsSpace(s[|s| - 1]) {
      TrimRightKeepsStart(s[..|s| - 1]);
    }
  }

  lemma RenderedIsNotBlank(cs: seq<string>)
    ensures !Blank(Render(cs))
  {
    TrimRightKeepsStart(Render(cs));
  }

  lemma AssetsValidate(w: World, root: seq<string>, declared: seq<string>, assets: seq<Asset>)
    requires IsPath(root) && Sane(w) && PrefixMatches(w, root, declared, assets)
    ensures forall i :: 0 <= i < |assets| ==> !Blank(assets[i].path) && ValidDigest(assets[i].digest)
  {
    forall i | 0 <= i < |assets|
      ensures !Blank(assets[i].path) && ValidDigest(assets[i].digest)
    {
      assert AssetMatches(w, root, declared[i], assets[i]);
      RenderedIsNotBlank(ResolvePath(w, root, declared[i]).value);
      DigestIsValid(w, w.read(assets[i].path).bytes);
    }
  }

  lemma StoppedIsNotUsable(w: World, root: seq<string>, declared: string, a: Asset)
    requires IsPath(root) && Sane(w) && Culprit(w, root, declared, a)
    ensures !AssetUsable(w, root, declared)
    ensures ResolvePath(w, root, declared).Some? ==> a.path == Render(ResolvePath(w, root, declared).value)
  {
  }

  lemma LoadedValidates(
    w: World, o: LoadOptions, root: seq<string>, m: Metadata, path: string, bytes: seq<Byte>, id: Identity)
    requires Sane(w) && IsPath(root) && !RefusedUnseen(o)
    requires ManifestUsable(w, o, root, path, bytes, id)
    requires |m.assets| == |o.assetPaths| && PrefixMatches(w, root, o.assetPaths, m.assets)
    requires m == Metadata(o.pluginId, o.generation, Render(root), path, m.assets, DigestOf(w, bytes),
                           id.schemaVersion, DeclaredValid, "", "", o.observedAt, o.correlation)
    ensures Validates(m, Some(o.generation), w.secretLike)
    ensures forall i :: 0 <= i < |o.assetPaths| ==> AssetUsable(w, root, o.assetPaths[i])
    ensures Inside(w, root, m.manifestPath) && forall i :: 0 <= i < |m.assets| ==> Inside(w, root, m.assets[i].path)
  {
    hide Inside;
    hide ResolvePath, ValidDigest, Text.TrimSpace, Render, DigestOf, Events.ValidPluginId, ManifestName, IsPath;
    DigestIsValid(w, bytes);
    RenderedIsNotBlank(root);
    RenderedIsNotBlank(ResolvePath(w, root, ManifestName(o)).value);
    AssetsValidate(w, root, o.assetPaths, m.assets);
    ResolvedIsInside(w, root, ManifestName(o));
    forall i | 0 <= i < |o.assetPaths|
      ensures AssetUsable(w, root, o.assetPaths[i]) && Inside(w, root, m.assets[i].path)
    {
      assert AssetMatches(w, root, o.assetPaths[i], m.assets[i]);
      ResolvedIsInside(w, root, o.assetPaths[i]);
    }
  }
}
