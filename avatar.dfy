/** The avatar address (src/lib/avatar.ts): a query of three parameters
    (seed, size and background colour by role) after the fixed address of
    the avatar service. The query is serialised as `URLSearchParams` does:
    each name and value in the form-urlencoded byte encoding of its UTF-8
    form, `name=value` pairs joined by '&'. */
module Avatar {
  import opened Wrappers
  import opened Text

  const SERVICE: string := "https://api.dicebear.com/9.x/bottts-neutral/svg"
  const SEED_SUFFIX: string := "GUtv 52"
  const SIZE: string := "128"

  const ADMIN_BACKGROUND: string := "e9d5ff"
  const OSNOVA_BACKGROUND: string := "fef3c7"
  const RONIN_BACKGROUND: string := "fecaca"
  const DEFAULT_BACKGROUND: string := "d1ecf1"

  /** The colour chain on the role name; no role, or any other name, gets
      the default. */
  function Background(role: Option<string>): (r: string)
    ensures r == ADMIN_BACKGROUND <==> role == Some("Admin")
    ensures r == OSNOVA_BACKGROUND <==> role == Some("Osnova")
    ensures r == RONIN_BACKGROUND <==> role == Some("Ronin")
    ensures r == DEFAULT_BACKGROUND <==> role !in {Some("Admin"), Some("Osnova"), Some("Ronin")}
  {
    if role == Some("Admin") then ADMIN_BACKGROUND
    else if role == Some("Osnova") then OSNOVA_BACKGROUND
    else if role == Some("Ronin") then RONIN_BACKGROUND
    else DEFAULT_BACKGROUND
  }

  // ---------------------------------------------------------------------------
  // The form-urlencoded serialiser

  /** The bytes left as they are. */
  predicate Unreserved(c: char)
  {
    c == '*' || c == '-' || c == '.' || c == '_' || ('0' <= c <= '9') || ('A' <= c <= 'Z') || ('a' <= c <= 'z')
  }

  function HexDigit(d: nat): (c: char)
    requires d < 16
    ensures ('0' <= c <= '9') || ('A' <= c <= 'F')
  {
    if d < 10 then (('0' as int) + d) as char else (('A' as int) + d - 10) as char
  }

  /** `%XX` with upper-case hexadecimal digits. */
  function PercentByte(b: nat): (r: string)
    requires b < 256
    ensures |r| == 3 && r[0] == '%' && '&' !in r && '=' !in r
  {
    ['%', HexDigit(b / 16), HexDigit(b % 16)]
  }

  /** The UTF-8 bytes of one Unicode scalar value. */
  function Utf8(c: char): (r: seq<nat>)
    ensures 1 <= |r| <= 4 && forall i :: 0 <= i < |r| ==> r[i] < 256
    ensures c as int < 0x80 ==> r == [c as int]
  {
    var n := c as int;
    if n < 0x80 then [n]
    else if n < 0x800 then [0xC0 + n / 64, 0x80 + n % 64]
    else if n < 0x10000 then [0xE0 + n / 4096, 0x80 + (n / 64) % 64, 0x80 + n % 64]
    else [0xF0 + n / 262144, 0x80 + (n / 4096) % 64, 0x80 + (n / 64) % 64, 0x80 + n % 64]
  }

  function PercentBytes(bs: seq<nat>): (r: string)
    requires forall i :: 0 <= i < |bs| ==> bs[i] < 256
    ensures |r| == 3 * |bs| && '&' !in r && '=' !in r
  {
    if bs == [] then "" else PercentByte(bs[0]) + PercentBytes(bs[1..])
  }

  /** One character: itself when unreserved, '+' for a space, otherwise
      its bytes percent-encoded. */
  function EncodeChar(c: char): string
  {
    if Unreserved(c) then [c] else if c == ' ' then "+" else PercentBytes(Utf8(c))
  }

  function Encode(s: string): string
  {
    if s == "" then "" else EncodeChar(s[0]) + Encode(s[1..])
  }

  /** No encoded text holds a separator. */
  lemma {:induction false} EncodeNoSeparator(s: string)
    ensures '&' !in Encode(s) && '=' !in Encode(s)
  {
    if s != "" {
      EncodeNoSeparator(s[1..]);
    }
  }

  /** The encoding works character by character. */
  lemma {:induction false} EncodeAppend(a: string, b: string)
    ensures Encode(a + b) == Encode(a) + Encode(b)
  {
    if a != "" {
      assert (a + b)[0] == a[0];
      assert (a + b)[1..] == a[1..] + b;
      EncodeAppend(a[1..], b);
    } else {
      assert a + b == b;
    }
  }

  /** Letters, digits and `*-._` pass unchanged. */
  lemma {:induction false} EncodeUnreserved(s: string)
    requires forall i :: 0 <= i < |s| ==> Unreserved(s[i])
    ensures Encode(s) == s
  {
    if s != "" {
      EncodeUnreserved(s[1..]);
      assert s == [s[0]] + s[1..];
    }
  }

  function PairText(p: (string, string)): string
  {
    Encode(p.0) + "=" + Encode(p.1)
  }

  /** `new URLSearchParams(record).toString()`. */
  function Serialize(pairs: seq<(string, string)>): string
  {
    Join(seq(|pairs|, i requires 0 <= i < |pairs| => PairText(pairs[i])), "&")
  }

  /** A pair goes out as its encoded name, '=', its encoded value, and
      splits back into the two. */
  lemma PairTextSplits(p: (string, string))
    ensures Split(PairText(p), '=') == [Encode(p.0), Encode(p.1)]
  {
    EncodeNoSeparator(p.0);
    EncodeNoSeparator(p.1);
    var parts := [Encode(p.0), Encode(p.1)];
    assert Join(parts, "=") == PairText(p) by {
      assert Join(parts[1..], "=") == Encode(p.1);
    }
    SplitJoin(parts, '=');
  }

  /** Three pairs serialise to three '&'-separated pieces, in order. */
  lemma SerializeThree(a: (string, string), b: (string, string), c: (string, string))
    ensures Split(Serialize([a, b, c]), '&') == [PairText(a), PairText(b), PairText(c)]
  {
    var parts := [PairText(a), PairText(b), PairText(c)];
    EncodeNoSeparator(a.0);
    EncodeNoSeparator(a.1);
    EncodeNoSeparator(b.0);
    EncodeNoSeparator(b.1);
    EncodeNoSeparator(c.0);
    EncodeNoSeparator(c.1);
    assert seq(3, i requires 0 <= i < 3 => PairText([a, b, c][i])) == parts;
    assert Join(parts, "&") == Serialize([a, b, c]);
    SplitJoin(parts, '&');
  }

  // ---------------------------------------------------------------------------
  // getAvatarUrl

  function Params(login: string, role: Option<string>): seq<(string, string)>
  {
    [("seed", login + SEED_SUFFIX), ("size", SIZE), ("backgroundColor", Background(role))]
  }

  function AvatarUrl(login: string, role: Option<string>): (r: string)
    ensures |r| >= |SERVICE| + 1 && r[..|SERVICE| + 1] == SERVICE + "?"
  {
    SERVICE + "?" + Serialize(Params(login, role))
  }

  /** The address is the service address, '?', then exactly the three
      pairs in order: seed, size, background colour. */
  lemma AvatarUrlShape(login: string, role: Option<string>)
    ensures Split(AvatarUrl(login, role)[|SERVICE| + 1..], '&') == [PairText(("seed", login + SEED_SUFFIX)),
      PairText(("size", SIZE)), PairText(("backgroundColor", Background(role)))]
  {
    var pairs := Params(login, role);
    SerializeThree(pairs[0], pairs[1], pairs[2]);
    assert pairs == [pairs[0], pairs[1], pairs[2]];
    var url := AvatarUrl(login, role);
    assert url == (SERVICE + "?") + Serialize(pairs);
    assert url[|SERVICE| + 1..] == Serialize(pairs);
  }

  /** The seed goes out as the encoded login followed by "GUtv+52". */
  lemma SeedEncoding(login: string)
    ensures Encode(login + SEED_SUFFIX) == Encode(login) + "GUtv+52"
  {
    EncodeAppend(login, SEED_SUFFIX);
    SuffixEncoding();
  }

  lemma SuffixEncoding()
    ensures Encode(SEED_SUFFIX) == "GUtv+52"
  {
    var w, rest := "GUtv", " 52";
    assert SEED_SUFFIX == w + rest;
    WordPlain();
    SpaceDigits();
    EncodeAppend(w, rest);
  }

  lemma WordPlain()
    ensures Encode("GUtv") == "GUtv"
  {
    EncodeUnreserved("GUtv");
  }

  lemma SpaceDigits()
    ensures Encode(" 52") == "+52"
  {
    var sp, d := " ", "52";
    assert " 52" == sp + d;
    assert Encode(sp) == "+";
    EncodeUnreserved(d);
    EncodeAppend(sp, d);
  }

  /** The names and the size are sent as they are. */
  lemma NamesPlain()
    ensures Encode("seed") == "seed" && Encode("size") == "size" && Encode(SIZE) == SIZE
  {
    EncodeUnreserved("seed");
    EncodeUnreserved("size");
    EncodeUnreserved(SIZE);
  }

  lemma BackgroundNamePlain()
    ensures Encode("backgroundColor") == "backgroundColor"
  {
    EncodeUnreserved("backgroundColor");
  }

  /** Every colour is sent as it is. */
  lemma BackgroundPlain(role: Option<string>)
    ensures Encode(Background(role)) == Background(role)
  {
    var c := Background(role);
    if c == ADMIN_BACKGROUND {
      EncodeUnreserved(ADMIN_BACKGROUND);
    } else if c == OSNOVA_BACKGROUND {
      EncodeUnreserved(OSNOVA_BACKGROUND);
    } else if c == RONIN_BACKGROUND {
      EncodeUnreserved(RONIN_BACKGROUND);
    } else {
      EncodeUnreserved(DEFAULT_BACKGROUND);
    }
  }

  /** Each of the three pieces reads back as its name and its value: the
      seed is the encoded login then "GUtv+52", the size is 128, and the
      colour is the role's. */
  lemma PiecesReadBack(login: string, role: Option<string>)
    ensures Split(PairText(("seed", login + SEED_SUFFIX)), '=') == ["seed", Encode(login) + "GUtv+52"]
    ensures Split(PairText(("size", SIZE)), '=') == ["size", SIZE]
    ensures Split(PairText(("backgroundColor", Background(role))), '=') == ["backgroundColor", Background(role)]
  {
    PairTextSplits(("seed", login + SEED_SUFFIX));
    PairTextSplits(("size", SIZE));
    PairTextSplits(("backgroundColor", Background(role)));
    NamesPlain();
    BackgroundNamePlain();
    BackgroundPlain(role);
    SeedEncoding(login);
  }

  /** Roles with different colours give different addresses. */
  lemma BackgroundDistinguishesRoles(login: string, a: Option<string>, b: Option<string>)
    requires Background(a) != Background(b)
    ensures AvatarUrl(login, a) != AvatarUrl(login, b)
  {
    AvatarUrlShape(login, a);
    AvatarUrlShape(login, b);
    BackgroundPlain(a);
    BackgroundPlain(b);
    PairTextSplits(("backgroundColor", Background(a)));
    PairTextSplits(("backgroundColor", Background(b)));
  }
}
