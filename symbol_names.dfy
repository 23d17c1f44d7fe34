/** Linker-safe symbol names: `sanitize` maps any string into the alphabet
    the GNU assembler accepts in symbols, `mangle` builds a C++-style nested
    name `_ZN <len><component>... E`, and `mangle_exported_name` appends a
    type hash and three characters derived from the item's node id.

    The SHA-256 digest is not modelled: the hash function is a parameter
    that yields 32 bytes, and only the shape of the symbol hash (`h` and the
    lower-case hex of the first 8 digest bytes) is stated. */
module SymbolNames {
  import opened Common

  // ---------------------------------------------------------------------
  // The assembler alphabet

  /** The characters gas accepts in a symbol: `[A-Za-z0-9_.$]`. */
  predicate IsSymbolChar(c: char) {
    ('a' <= c <= 'z') || ('A' <= c <= 'Z') || ('0' <= c <= '9') || c == '_' || c == '.' || c == '$'
  }

  predicate IsSymbolString(s: string) {
    forall i :: 0 <= i < |s| ==> IsSymbolChar(s[i])
  }

  /** `char::is_XID_start` on the ASCII characters a sanitized name is made of. */
  predicate IsAsciiLetter(c: char) {
    ('a' <= c <= 'z') || ('A' <= c <= 'Z')
  }

  function HexDigit(d: nat): (c: char)
    requires d < 16
    ensures IsSymbolChar(c) && !IsAsciiLetter(c) == (d < 10)
  {
    if d < 10 then ('0' as int + d) as char else ('a' as int + d - 10) as char
  }

  /** The `width` lowest hex digits of `v`, most significant first. */
  function HexDigits(v: nat, width: nat): (r: string)
    ensures |r| == width && IsSymbolString(r)
  {
    if width == 0 then [] else HexDigits(v / 16, width - 1) + [HexDigit(v % 16)]
  }

  /** `char::escape_unicode`: a backslash, then `x` and two hex digits for
      code points up to 0xff, `u` and four up to 0xffff, `U` and eight
      beyond. */
  function EscapeUnicode(c: char): (r: string)
    ensures 2 <= |r| && r[0] == '\\' && IsSymbolString(r[1..])
  {
    var v := c as int;
    if v <= 0xff then "\\x" + HexDigits(v, 2)
    else if v <= 0xffff then "\\u" + HexDigits(v, 4)
    else "\\U" + HexDigits(v, 8)
  }

  // ---------------------------------------------------------------------
  // sanitize

  /** What `sanitize` pushes for one character: the fixed `$..$` escapes,
      `.` for `-` and `:`, the character itself when it is already legal,
      and otherwise `$` followed by its Unicode escape without the backslash. */
  function Escape(c: char): (r: string)
    ensures r != [] && IsSymbolString(r)
    ensures IsSymbolChar(c) ==> r == [c]
    ensures (r[0] == '_') == (c == '_') && IsAsciiLetter(r[0]) == IsAsciiLetter(c)
  {
    if c == '@' then "$SP$"
    else if c == '~' then "$UP$"
    else if c == '*' then "$RP$"
    else if c == '&' then "$BP$"
    else if c == '<' then "$LT$"
    else if c == '>' then "$GT$"
    else if c == '(' then "$LP$"
    else if c == ')' then "$RP$"
    else if c == ',' then "$C$"
    else if c == '-' || c == ':' then "."
    else if IsSymbolChar(c) then [c]
    else "$" + EscapeUnicode(c)[1..]
  }

  /** The string `sanitize` has built when its loop ends. */
  function Escaped(s: string): (r: string)
    ensures IsSymbolString(r)
    ensures r == [] <==> s == []
  {
    if s == [] then [] else Escaped(s[..|s| - 1]) + Escape(s[|s| - 1])
  }

  /** Predicate for the final step of `sanitize`: a non-empty result must
      start with `_` or an identifier-start character. */
  predicate StartsAsIdent(r: string) {
    r != [] && (r[0] == '_' || IsAsciiLetter(r[0]))
  }

  /** The result of `sanitize`: the escaped string, underscore-qualified
      when it does not start like an identifier. */
  function Sanitized(s: string): (r: string)
    ensures IsSymbolString(r)
    ensures r == [] <==> s == []
    ensures r != [] ==> StartsAsIdent(r)
  {
    var raw := Escaped(s);
    if |raw| > 0 && !StartsAsIdent(raw) then "_" + raw else raw
  }

  /** `sanitize`, pushing one escape per character onto a growing string. */
  method Sanitize(s: string) returns (result: string)
    ensures result == Sanitized(s)
  {
    result := "";
    var i := 0;
    while i < |s|
      invariant 0 <= i <= |s|
      invariant result == Escaped(s[..i])
    {
      assert s[..i + 1][..i] == s[..i];
      result := result + Escape(s[i]);
      i := i + 1;
    }
    assert s[..|s|] == s;
    if |result| > 0 && !StartsAsIdent(result) {
      result := "_" + result;
    }
  }

  /** Escaping works character by character. */
  lemma {:induction false} EscapedAppend(a: string, b: string)
    ensures Escaped(a + b) == Escaped(a) + Escaped(b)
  {
    if b != [] {
      assert (a + b)[..|a + b| - 1] == a + b[..|b| - 1];
      EscapedAppend(a, b[..|b| - 1]);
    } else {
      assert a + b == a;
    }
  }

  /** A string already in the alphabet is escaped to itself. */
  lemma {:induction false} EscapedLegal(s: string)
    requires IsSymbolString(s)
    ensures Escaped(s) == s
  {
    if s != [] {
      EscapedLegal(s[..|s| - 1]);
    }
  }

  lemma EscapedSingle(c: char)
    ensures Escaped([c]) == Escape(c)
  {
    assert [c][..0] == [];
    AppendNil(Escape(c));
  }

  lemma EscapedFirst(s: string)
    requires s != []
    ensures Escaped(s) == Escape(s[0]) + Escaped(s[1..])
  {
    EscapedAppend([s[0]], s[1..]);
    assert [s[0]] + s[1..] == s;
    EscapedSingle(s[0]);
  }

  /** The leading `_` is added exactly when the input is non-empty and its
      first character is neither `_` nor an ASCII letter. */
  lemma SanitizedPrefix(s: string)
    ensures Sanitized(s) ==
      (if s != [] && s[0] != '_' && !IsAsciiLetter(s[0]) then "_" else "") + Escaped(s)
  {
    if s != [] {
      EscapedFirst(s);
      assert Escaped(s)[0] == Escape(s[0])[0];
      assert StartsAsIdent(Escaped(s)) == (s[0] == '_' || IsAsciiLetter(s[0]));
    }
    AppendNil(Escaped(s));
  }

  /** Legal characters pass through unchanged: a legal input that starts
      like an identifier is its own sanitization, and one that does not
      only gains the leading `_`. */
  lemma SanitizedLegal(s: string)
    requires IsSymbolString(s)
    ensures StartsAsIdent(s) || s == [] ==> Sanitized(s) == s
    ensures !StartsAsIdent(s) && s != [] ==> Sanitized(s) == "_" + s
  {
    EscapedLegal(s);
  }

  /** A single character sanitizes to its escape, with the leading `_`
      whenever it is neither `_` nor a letter: every `$..$` escape and the
      `.` for `-` and `:` therefore come out `_`-prefixed. */
  lemma SanitizedSingle(c: char)
    ensures Sanitized([c]) == (if c != '_' && !IsAsciiLetter(c) then "_" else "") + Escape(c)
  {
    SanitizedPrefix([c]);
    EscapedSingle(c);
  }

  /** Separators become dots and other characters their escapes. */
  lemma SanitizedDash()
    ensures Sanitized("a-b") == "a.b"
  {
    assert "a-b"[..2] == "a-" && "a-"[..1] == "a";
    assert Escaped("a-b") == Escaped("a-") + Escape('b');
    assert Escaped("a-") == Escaped("a") + Escape('-');
  }

  lemma SanitizedPathSeparator()
    ensures Sanitized("x::y") == "x..y"
  {
    assert "x::y"[..3] == "x::" && "x::"[..2] == "x:" && "x:"[..1] == "x";
    assert Escaped("x::y") == Escaped("x::") + Escape('y');
    assert Escaped("x::") == Escaped("x:") + Escape(':');
    assert Escaped("x:") == Escaped("x") + Escape(':');
  }

  /** Any other character becomes `$` and its Unicode escape. */
  lemma SanitizedSpace()
    ensures Sanitized(" ") == "_$x20"
  {
    EscapeSpace();
    SanitizedSingle(' ');
  }

  /** A space escapes to `$x20`. */
  lemma EscapeSpace()
    ensures Escape(' ') == "$x20"
  {
    assert EscapeUnicode(' ') == "\\x20" by {
      HexSpace();
    }
    assert Escape(' ') == "$" + EscapeUnicode(' ')[1..] by {
      assert !IsSymbolChar(' ');
    }
    assert "\\x20"[1..] == "x20";
  }

  /** The code point of a space in two hex digits. */
  lemma HexSpace()
    ensures HexDigits(32, 2) == "20"
  {
    assert HexDigits(2, 1) == "2" by {
      assert HexDigit(2) == '2';
    }
    assert HexDigit(0) == '0';
    assert HexDigits(32, 2) == HexDigits(2, 1) + [HexDigit(0)];
  }

  /** The table sends `*` and `)` to the same escape, so sanitization is
      not injective. */
  lemma SanitizeCollides()
    ensures Sanitized("*") == Sanitized(")") == "_$RP$"
  {
    SanitizedSingle('*');
    SanitizedSingle(')');
  }

  // ---------------------------------------------------------------------
  // mangle

  /** One `<len><sanitized>` pair pushed by `mangle`'s inner `push`. */
  function Component(c: string): string {
    var s := Sanitized(c);
    NatToDecimal(|s|) + s
  }

  function Components(cs: seq<string>): string {
    if cs == [] then [] else Component(cs[0]) + Components(cs[1..])
  }

  /** The hash, when there is one, is pushed as one more component. */
  function HashComponent(hash: Option<string>): seq<string> {
    if hash.Some? then [hash.value] else []
  }

  /** The name `mangle(path, hash)` returns. */
  function Mangled(path: seq<string>, hash: Option<string>): string {
    "_ZN" + Components(path + HashComponent(hash)) + "E"
  }

  lemma {:induction false} ComponentsAppend(a: seq<string>, b: seq<string>)
    ensures Components(a + b) == Components(a) + Components(b)
  {
    if a != [] {
      assert (a + b)[0] == a[0];
      assert (a + b)[1..] == a[1..] + b;
      ComponentsAppend(a[1..], b);
      Assoc(Component(a[0]), Components(a[1..]), Components(b));
    } else {
      assert a + b == b;
      AppendNil(Components(b));
    }
  }

  lemma ComponentsSnoc(a: seq<string>, x: string)
    ensures Components(a + [x]) == Components(a) + Component(x)
  {
    ComponentsAppend(a, [x]);
    assert [x][0] == x && [x][1..] == [];
    AppendNil(Component(x));
  }

  lemma ComponentsPrefix(path: seq<string>, i: nat)
    requires i < |path|
    ensures Components(path[..i + 1]) == Components(path[..i]) + Component(path[i])
  {
    assert path[..i + 1] == path[..i] + [path[i]];
    ComponentsSnoc(path[..i], path[i]);
  }

  /** `push`: append the decimal length of the sanitized string, then the
      sanitized string. */
  method Push(n: string, s: string) returns (r: string)
    ensures r == n + Component(s)
  {
    var sani := Sanitize(s);
    r := n + NatToDecimal(|sani|) + sani;
    Assoc(n, NatToDecimal(|sani|), sani);
  }

  /** `mangle`: `_ZN`, one pair per path component, then the hash if any,
      then `E`. */
  method Mangle(path: seq<string>, hash: Option<string>) returns (n: string)
    ensures n == Mangled(path, hash)
  {
    n := "_ZN";
    var i := 0;
    while i < |path|
      invariant 0 <= i <= |path|
      invariant n == "_ZN" + Components(path[..i])
    {
      n := Push(n, path[i]);
      ComponentsPrefix(path, i);
      Assoc("_ZN", Components(path[..i]), Component(path[i]));
      i := i + 1;
    }
    assert path[..|path|] == path;
    match hash {
      case Some(s) =>
        n := Push(n, s);
        ComponentsSnoc(path, s);
        Assoc("_ZN", Components(path), Component(s));
        assert HashComponent(hash) == [s];
      case None =>
        assert path + HashComponent(hash) == path;
    }
    n := n + "E";
  }

  /** `exported_name`: mangle with the hash present. */
  method ExportedName(path: seq<string>, hash: string) returns (n: string)
    ensures n == Mangled(path, Some(hash))
  {
    n := Mangle(path, Some(hash));
  }

  // ---------------------------------------------------------------------
  // Reading a mangled name back

  function SanitizedAll(cs: seq<string>): (r: seq<string>)
    ensures |r| == |cs|
  {
    if cs == [] then [] else [Sanitized(cs[0])] + SanitizedAll(cs[1..])
  }

  /** Parse `<len><chars>` pairs up to the closing `E`. */
  function ParseComponents(s: string): Option<seq<string>>
    decreases |s|
  {
    if s == "E" then Some([])
    else
      var digits := LeadingDigits(s);
      if digits == [] then None
      else
        var len := DecimalValue(digits);
        var rest := s[|digits|..];
        if len > |rest| then None
        else
          match ParseComponents(rest[len..])
          case None => None
          case Some(cs) => Some([rest[..len]] + cs)
  }

  /** A nested name's components, or `None` when it is not one. */
  function Demangle(n: string): Option<seq<string>> {
    if StartsWith(n, "_ZN") then ParseComponents(n[3..]) else None
  }

  /** One `<len><chars>` pair in front of the rest is read off exactly. */
  lemma ParseOne(s: string, tail: string)
    requires s != [] && !IsDigit(s[0])
    ensures ParseComponents(NatToDecimal(|s|) + s + tail) ==
      match ParseComponents(tail)
      case None => None
      case Some(cs) => Some([s] + cs)
  {
    var d := NatToDecimal(|s|);
    var whole := d + s + tail;
    assert whole == d + (s + tail);
    LeadingDigitsOf(d, s + tail);
    DecimalRoundTrip(|s|);
    var rest := whole[|d|..];
    assert rest == s + tail;
    assert rest[..|s|] == s;
    assert rest[|s|..] == tail;
    assert whole != "E" by { assert IsDigit(whole[0]); }
  }

  lemma {:induction false} ParseComponentsOf(cs: seq<string>)
    requires forall i :: 0 <= i < |cs| ==> cs[i] != ""
    ensures ParseComponents(Components(cs) + "E") == Some(SanitizedAll(cs))
  {
    if cs == [] {
      assert Components(cs) + "E" == "E";
    } else {
      var s := Sanitized(cs[0]);
      var tail := Components(cs[1..]) + "E";
      assert Components(cs) + "E" == NatToDecimal(|s|) + s + tail;
      ParseComponentsOf(cs[1..]);
      ParseOne(s, tail);
    }
  }

  /** Round trip: the mangled name of non-empty components reads back as
      the sanitized components, in order, with the hash last when given. */
  lemma DemangleMangled(path: seq<string>, hash: Option<string>)
    requires forall i :: 0 <= i < |path| ==> path[i] != ""
    requires hash.Some? ==> hash.value != ""
    ensures Demangle(Mangled(path, hash)) == Some(SanitizedAll(path + HashComponent(hash)))
  {
    NonEmptyWithHash(path, hash);
    DemangleOf(path + HashComponent(hash));
  }

  lemma NonEmptyWithHash(path: seq<string>, hash: Option<string>)
    requires forall i :: 0 <= i < |path| ==> path[i] != ""
    requires hash.Some? ==> hash.value != ""
    ensures forall i :: 0 <= i < |path + HashComponent(hash)| ==> (path + HashComponent(hash))[i] != ""
  {
    var cs := path + HashComponent(hash);
    forall i | 0 <= i < |cs| ensures cs[i] != "" {
      if i >= |path| {
        assert cs[i] == hash.value;
      } else {
        assert cs[i] == path[i];
      }
    }
  }

  lemma DemangleOf(cs: seq<string>)
    requires forall i :: 0 <= i < |cs| ==> cs[i] != ""
    ensures Demangle("_ZN" + Components(cs) + "E") == Some(SanitizedAll(cs))
  {
    ParseComponentsOf(cs);
    Assoc("_ZN", Components(cs), "E");
    DropPrefix("_ZN", Components(cs) + "E");
  }

  /** Mangled names are grammatical: `_ZN` first, `E` last, and with no
      hash exactly the path's pairs in between. */
  lemma MangledShape(path: seq<string>, hash: Option<string>)
    ensures StartsWith(Mangled(path, hash), "_ZN") && EndsWith(Mangled(path, hash), "E")
    ensures hash.None? ==> Mangled(path, hash) == "_ZN" + Components(path) + "E"
    ensures hash.Some? ==>
      Mangled(path, hash) == "_ZN" + Components(path) + Component(hash.value) + "E"
  {
    var n := Mangled(path, hash);
    assert n[..3] == "_ZN";
    assert n[|n| - 1..] == "E";
    if hash.Some? {
      ComponentsSnoc(path, hash.value);
      assert HashComponent(hash) == [hash.value];
      Assoc("_ZN", Components(path), Component(hash.value));
    } else {
      assert path + HashComponent(hash) == path;
    }
  }

  lemma {:induction false} SanitizedAllLast(a: seq<string>, x: string)
    ensures SanitizedAll(a + [x]) == SanitizedAll(a) + [Sanitized(x)]
  {
    if a != [] {
      assert (a + [x])[1..] == a[1..] + [x];
      SanitizedAllLast(a[1..], x);
    } else {
      assert a + [x] == [x];
    }
  }

  // ---------------------------------------------------------------------
  // Symbol hash

  newtype byte = x: int | 0 <= x < 256

  /** A SHA-256 digest: exactly 32 bytes. */
  type Digest = d: seq<byte> | |d| == 32 witness seq(32, _ => 0 as byte)

  datatype LinkMeta = LinkMeta(crateName: string, crateHash: string)

  predicate IsHex(c: char) {
    ('0' <= c <= '9') || ('a' <= c <= 'f')
  }

  /** Lower-case hex, two digits per byte, high nibble first. */
  function ToHex(bytes: seq<byte>): (r: string)
    ensures |r| == 2 * |bytes|
    ensures forall i :: 0 <= i < |r| ==> IsHex(r[i])
  {
    if bytes == [] then []
    else [HexDigit(bytes[0] as int / 16), HexDigit(bytes[0] as int % 16)] + ToHex(bytes[1..])
  }

  function HexValue(c: char): nat
    requires IsHex(c)
  {
    if c <= '9' then c as int - '0' as int else c as int - 'a' as int + 10
  }

  /** The partner of `ToHex`: reads two hex digits per byte. */
  function FromHex(s: string): seq<byte>
    requires |s| % 2 == 0 && forall i :: 0 <= i < |s| ==> IsHex(s[i])
  {
    if s == [] then []
    else [(HexValue(s[0]) * 16 + HexValue(s[1])) as byte] + FromHex(s[2..])
  }

  lemma {:induction false} FromHexToHex(bytes: seq<byte>)
    ensures FromHex(ToHex(bytes)) == bytes
  {
    if bytes != [] {
      var b := bytes[0] as int;
      assert HexValue(HexDigit(b / 16)) == b / 16;
      assert HexValue(HexDigit(b % 16)) == b % 16;
      assert (b / 16) * 16 + b % 16 == b;
      assert ToHex(bytes)[2..] == ToHex(bytes[1..]);
      FromHexToHex(bytes[1..]);
    }
  }

  /** What `symbol_hash` feeds the hasher, in order: crate name, `-`,
      crate hash, every linked crate's metadata, `-`, the encoded type. */
  function HashInput(meta: LinkMeta, crateMetadata: seq<string>, encodedType: string): string {
    meta.crateName + "-" + meta.crateHash + Concat(crateMetadata) + "-" + encodedType
  }

  /** `truncated_hash_result`: the hex of the first 8 digest bytes. */
  function TruncatedHashResult(digest: Digest): (r: string)
    ensures |r| == 16 && forall i :: 0 <= i < 16 ==> IsHex(r[i])
  {
    ToHex(digest[..8])
  }

  predicate IsSymbolHash(h: string) {
    |h| == 17 && h[0] == 'h' && forall i :: 1 <= i < 17 ==> IsHex(h[i])
  }

  /** `symbol_hash`: `h` followed by the truncated digest of the input. */
  function SymbolHash(sha256: string -> Digest, meta: LinkMeta, crateMetadata: seq<string>,
                      encodedType: string): (h: string)
    ensures IsSymbolHash(h)
  {
    "h" + TruncatedHashResult(sha256(HashInput(meta, crateMetadata, encodedType)))
  }

  /** Two symbol hashes agree exactly when the two digests agree on their
      first 8 bytes: truncation is the only loss. */
  lemma SymbolHashDetermined(sha256: string -> Digest, m1: LinkMeta, c1: seq<string>, t1: string,
                             m2: LinkMeta, c2: seq<string>, t2: string)
    ensures SymbolHash(sha256, m1, c1, t1) == SymbolHash(sha256, m2, c2, t2) <==>
      sha256(HashInput(m1, c1, t1))[..8] == sha256(HashInput(m2, c2, t2))[..8]
  {
    var d1 := sha256(HashInput(m1, c1, t1))[..8];
    var d2 := sha256(HashInput(m2, c2, t2))[..8];
    if SymbolHash(sha256, m1, c1, t1) == SymbolHash(sha256, m2, c2, t2) {
      assert ToHex(d1) == SymbolHash(sha256, m1, c1, t1)[1..];
      assert ToHex(d2) == SymbolHash(sha256, m2, c2, t2)[1..];
      FromHexToHex(d1);
      FromHexToHex(d2);
    }
  }

  /** The per-compilation memo from types to their hashes
      (`type_hashcodes`), with what the hash depends on. Types are
      identified by their encoded form. */
  class CrateContext {
    const sha256: string -> Digest
    const linkMeta: LinkMeta
    const crateMetadata: seq<string>
    var typeHashcodes: map<string, string>

    /** Every memoized hash is the hash of its type. */
    ghost predicate Valid()
      reads this
    {
      forall t :: t in typeHashcodes ==>
        typeHashcodes[t] == SymbolHash(sha256, linkMeta, crateMetadata, t)
    }

    constructor (sha256: string -> Digest, linkMeta: LinkMeta, crateMetadata: seq<string>)
      ensures Valid() && typeHashcodes == map[]
      ensures this.sha256 == sha256 && this.linkMeta == linkMeta
      ensures this.crateMetadata == crateMetadata
    {
      this.sha256 := sha256;
      this.linkMeta := linkMeta;
      this.crateMetadata := crateMetadata;
      typeHashcodes := map[];
    }

    /** `get_symbol_hash`: the memoized hash if present, otherwise computed
        and recorded. Either way the memo afterwards maps `t` to it. */
    method GetSymbolHash(t: string) returns (h: string)
      requires Valid()
      modifies this
      ensures Valid()
      ensures h == SymbolHash(sha256, linkMeta, crateMetadata, t)
      ensures typeHashcodes == old(typeHashcodes)[t := h]
    {
      if t in typeHashcodes {
        h := typeHashcodes[t];
        assert typeHashcodes == typeHashcodes[t := h];
      } else {
        h := SymbolHash(sha256, linkMeta, crateMetadata, t);
        typeHashcodes := typeHashcodes[t := h];
      }
    }
  }

  // ---------------------------------------------------------------------
  // mangle_exported_name

  /** Digit `d` of the base-62 alphabet `a-z A-Z 0-9`. */
  function ExtraChar(d: nat): (c: char)
    requires d < 62
    ensures IsSymbolChar(c)
  {
    if d < 26 then ('a' as int + d) as char
    else if d < 52 then ('A' as int + d - 26) as char
    else ('0' as int + d - 52) as char
  }

  /** `EXTRA_CHARS`: the lower-case letters, the upper-case letters, the digits. */
  function ExtraChars(): (r: string)
    ensures |r| == 62 && forall d :: 0 <= d < 62 ==> r[d] == ExtraChar(d)
  {
    seq(62, d requires 0 <= d < 62 => ExtraChar(d))
  }

  /** The three characters derived from a node id by repeated base-62
      digit extraction over `ExtraChars`, least significant first. */
  function Disambiguator(id: nat): (r: string)
    ensures |r| == 3 && IsSymbolString(r)
  {
    var n := |ExtraChars()|;
    [ExtraChars()[id % n], ExtraChars()[(id / n) % n], ExtraChars()[(id / n / n) % n]]
  }

  /** The name `mangle_exported_name` returns for a given symbol hash. */
  function ExportedNameOf(path: seq<string>, hash: string, id: nat): string {
    Mangled(path, Some(hash + Disambiguator(id)))
  }

  /** `mangle_exported_name`: get the type's hash, append the three id
      characters, mangle with the result as hash. */
  method MangleExportedName(ccx: CrateContext, path: seq<string>, t: string, id: nat)
    returns (name: string)
    requires ccx.Valid()
    modifies ccx
    ensures ccx.Valid()
    ensures name == ExportedNameOf(path, SymbolHash(ccx.sha256, ccx.linkMeta, ccx.crateMetadata, t), id)
    ensures ccx.typeHashcodes ==
      old(ccx.typeHashcodes)[t := SymbolHash(ccx.sha256, ccx.linkMeta, ccx.crateMetadata, t)]
  {
    var hash := ccx.GetSymbolHash(t);
    ghost var h0 := hash;
    var n := |ExtraChars()|;
    var extra1 := id % n;
    var rest := id / n;
    var extra2 := rest % n;
    rest := rest / n;
    var extra3 := rest % n;
    hash := hash + [ExtraChars()[extra1]];
    hash := hash + [ExtraChars()[extra2]];
    hash := hash + [ExtraChars()[extra3]];
    assert hash == h0 + Disambiguator(id);
    name := ExportedName(path, hash);
  }

  /** Inverse of the position of a character in `ExtraChars`. */
  function ExtraIndex(c: char): int {
    if 'a' <= c <= 'z' then c as int - 'a' as int
    else if 'A' <= c <= 'Z' then c as int - 'A' as int + 26
    else c as int - '0' as int + 52
  }

  lemma ExtraIndexOf(d: nat)
    requires d < 62
    ensures ExtraIndex(ExtraChar(d)) == d
  {
  }

  lemma ExtraCharsIndex()
    ensures |ExtraChars()| == 62
    ensures forall i :: 0 <= i < 62 ==> ExtraIndex(ExtraChars()[i]) == i
  {
    forall i | 0 <= i < 62 ensures ExtraIndex(ExtraChars()[i]) == i {
      ExtraIndexOf(i);
    }
  }

  /** The three base-62 digits of an id are those of its residue modulo
      62^3 = 238328. */
  lemma BaseDigits(id: nat)
    ensures id % 238328 == id % 62 + 62 * ((id / 62) % 62) + 3844 * ((id / 62 / 62) % 62)
  {
    var q1, r1 := id / 62, id % 62;
    var q2, r2 := q1 / 62, q1 % 62;
    var q3, r3 := q2 / 62, q2 % 62;
    assert id == 62 * q1 + r1;
    assert q1 == 62 * q2 + r2;
    assert q2 == 62 * q3 + r3;
    assert id == 238328 * q3 + (r1 + 62 * r2 + 3844 * r3);
    assert 0 <= r1 + 62 * r2 + 3844 * r3 < 238328;
  }

  /** Euclidean division is determined by quotient and remainder. */
  lemma DivMod62(x: nat, q: nat, r: nat)
    requires x == 62 * q + r && r < 62
    ensures x / 62 == q && x % 62 == r
  {
  }

  /** The three base-62 digits of an id depend only on its residue modulo
      62^3. */
  lemma DigitsOfResidue(id: nat)
    ensures id % 62 == (id % 238328) % 62
    ensures (id / 62) % 62 == ((id % 238328) / 62) % 62
    ensures (id / 62 / 62) % 62 == ((id % 238328) / 62 / 62) % 62
  {
    var q, m := id / 238328, id % 238328;
    var m1, m2 := m / 62, m / 62 / 62;
    assert m == 62 * m1 + m % 62;
    assert m1 == 62 * m2 + m1 % 62;
    assert id == 238328 * q + m;
    DivMod62(id, 3844 * q + m1, m % 62);
    DivMod62(id / 62, 62 * q + m2, m1 % 62);
    assert m2 < 62;
    DivMod62(id / 62 / 62, q, m2);
    DivMod62(m2, 0, m2);
  }

  /** Reading the three characters back gives the three digits. */
  lemma DisambiguatorDigits(id: nat)
    ensures ExtraIndex(Disambiguator(id)[0]) == id % 62
    ensures ExtraIndex(Disambiguator(id)[1]) == (id / 62) % 62
    ensures ExtraIndex(Disambiguator(id)[2]) == (id / 62 / 62) % 62
  {
    ExtraIndexOf(id % 62);
    ExtraIndexOf((id / 62) % 62);
    ExtraIndexOf((id / 62 / 62) % 62);
  }

  /** Two ids get the same three characters exactly when they agree
      modulo 62^3. */
  lemma DisambiguatorInjective(id1: nat, id2: nat)
    ensures Disambiguator(id1) == Disambiguator(id2) <==> id1 % 238328 == id2 % 238328
  {
    if Disambiguator(id1) == Disambiguator(id2) {
      DisambiguatorDigits(id1);
      DisambiguatorDigits(id2);
      BaseDigits(id1);
      BaseDigits(id2);
    }
    if id1 % 238328 == id2 % 238328 {
      DigitsOfResidue(id1);
      DigitsOfResidue(id2);
    }
  }

  /** A symbol hash with its three id characters is left alone by
      `sanitize`. */
  lemma SanitizedHashSuffix(hash: string, id: nat)
    requires IsSymbolHash(hash)
    ensures Sanitized(hash + Disambiguator(id)) == hash + Disambiguator(id)
  {
    var s := hash + Disambiguator(id);
    assert IsSymbolString(s) by {
      forall i | 0 <= i < |s| ensures IsSymbolChar(s[i]) {
        if i >= 17 { assert s[i] == Disambiguator(id)[i - 17]; }
      }
    }
    SanitizedLegal(s);
  }

  /** Structurally identical paths with the same type hash still get
      different exported names when their node ids differ modulo 62^3. */
  lemma ExportedNamesDisambiguated(path: seq<string>, hash: string, id1: nat, id2: nat)
    requires forall i :: 0 <= i < |path| ==> path[i] != ""
    requires IsSymbolHash(hash)
    requires id1 % 238328 != id2 % 238328
    ensures ExportedNameOf(path, hash, id1) != ExportedNameOf(path, hash, id2)
  {
    var h1, h2 := hash + Disambiguator(id1), hash + Disambiguator(id2);
    if ExportedNameOf(path, hash, id1) == ExportedNameOf(path, hash, id2) {
      DemangleMangled(path, Some(h1));
      DemangleMangled(path, Some(h2));
      SanitizedAllLast(path, h1);
      SanitizedAllLast(path, h2);
      assert HashComponent(Some(h1)) == [h1];
      assert HashComponent(Some(h2)) == [h2];
      assert SanitizedAll(path + [h1])[|path|] == Sanitized(h1);
      assert SanitizedAll(path + [h2])[|path|] == Sanitized(h2);
      SanitizedHashSuffix(hash, id1);
      SanitizedHashSuffix(hash, id2);
      assert h1 == h2;
      assert Disambiguator(id1) == h1[17..] == h2[17..] == Disambiguator(id2);
      DisambiguatorInjective(id1, id2);
    }
  }
}
