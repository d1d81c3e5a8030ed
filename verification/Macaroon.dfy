/** Entries of the macaroon jar: the tagged text that storeMacaroon prints, the
    parser loadMacaroon, and the path on which a client loads its own entry. */
module Macaroon {
  import opened Wrappers
  import opened Encoding

  type bytes = seq<byte>

  const PREFIX: string := "snacl:"

  /** The libraries around the entry: a macaroon's binary form, and encryption
      under a password, each of which may fail.  Seal returns the marshalled key
      and the cipher text; the salt stands for the randomness of a new key. */
  datatype Libs<!M> = Libs(
    marshal: M -> Option<bytes>,
    unmarshal: bytes -> Option<M>,
    seal: (bytes, bytes, bytes) -> Option<(bytes, bytes)>,  // password, salt, plain text
    open: (bytes, bytes, bytes) -> Option<bytes>)           // key, cipher text, password

  /** Reading undoes writing, and decrypting undoes encrypting. */
  ghost predicate Lawful<M(!new)>(libs: Libs<M>) {
    && (forall m :: libs.marshal(m).Some? ==> libs.unmarshal(libs.marshal(m).value) == Some(m))
    && (forall pw, salt, plain :: libs.seal(pw, salt, plain).Some? ==>
          var (key, cipher) := libs.seal(pw, salt, plain).value;
          libs.open(key, cipher, pw) == Some(plain))
  }

  /** The callback that asks for the password. */
  datatype Callback = Nil | Answers(pw: bytes) | Refuses

  datatype Problem = Empty | Format | NoPassword | BadBase64 | BadPassword | BadHex | BadMacaroon | Unsealed

  /** NilCall is the panic of calling a nil callback. */
  datatype Loaded<M> = Mac(mac: M) | Failed(why: Problem) | NilCall

  // ------------------------------------------------ text

  /** Go's unicode.IsSpace. */
  predicate IsSpace(c: char) {
    || c == ' ' || '\t' <= c <= '\r' || c == '\U{85}' || c == '\U{A0}' || c == '\U{1680}'
    || '\U{2000}' <= c <= '\U{200a}' || c == '\U{2028}' || c == '\U{2029}' || c == '\U{202f}' || c == '\U{205f}'
    || c == '\U{3000}'
  }

  /** These are the characters with Unicode's property White_Space, by code point. */
  lemma SpaceMeans(c: char)
    ensures IsSpace(c) <==>
      var n := c as int;
      || 9 <= n <= 13 || n == 32 || n == 133 || n == 160 || n == 5760 || 8192 <= n <= 8202
      || n == 8232 || n == 8233 || n == 8239 || n == 8287 || n == 12288
  {
  }

  /** TrimSpace leaves nothing. */
  predicate Blank(s: string) { forall k :: 0 <= k < |s| ==> IsSpace(s[k]) }

  function Split(s: string): seq<string>
    ensures |Split(s)| > 0
  {
    if s == "" then [""]
    else
      var rest := Split(s[1..]);
      if s[0] == ':' then [""] + rest else [[s[0]] + rest[0]] + rest[1..]
  }

  predicate NoColon(s: string) { forall k :: 0 <= k < |s| ==> s[k] != ':' }

  lemma {:induction false} SplitOne(s: string)
    requires NoColon(s)
    ensures Split(s) == [s]
  {
    if s != "" {
      SplitOne(s[1..]);
      assert s == [s[0]] + s[1..];
    }
  }

  lemma {:induction false} SplitFirst(a: string, s: string)
    requires NoColon(a)
    ensures Split(a + ":" + s) == [a] + Split(s)
    decreases a
  {
    var t := a + ":" + s;
    if a == "" {
      assert t == [':'] + s && t[1..] == s;
    } else {
      assert t[1..] == a[1..] + ":" + s && t[0] == a[0];
      SplitFirst(a[1..], s);
      assert a == [a[0]] + a[1..];
    }
  }

  function Join(parts: seq<string>): string
    requires parts != []
  {
    if |parts| == 1 then parts[0] else parts[0] + ":" + Join(parts[1..])
  }

  /** Split and Join are inverse, so a text has one split. */
  lemma {:induction false} JoinSplit(s: string)
    ensures Join(Split(s)) == s && forall k :: 0 <= k < |Split(s)| ==> NoColon(Split(s)[k])
  {
    if s != "" {
      JoinSplit(s[1..]);
      var rest := Split(s[1..]);
      if s[0] == ':' {
        assert Split(s)[1..] == rest;
        assert s == [':'] + s[1..];
      } else {
        assert Split(s)[1..] == rest[1..];
        assert s == [s[0]] + s[1..];
        if |rest| > 1 {
          assert s == [s[0]] + (rest[0] + ":" + Join(rest[1..]));
          assert s == Split(s)[0] + ":" + Join(Split(s)[1..]);
        }
      }
    }
  }

  // ------------------------------------------------ print and parse

  /** None when the macaroon has no binary form or cannot be encrypted. */
  function Print<M>(libs: Libs<M>, mac: M, pw: bytes, salt: bytes): Option<string> {
    match libs.marshal(mac)
    case None => None
    case Some(plain) =>
      if pw == [] then Some(HexEncode(plain))
      else
        match libs.seal(pw, salt, plain)
        case None => None
        case Some((key, cipher)) => Some(PREFIX + B64Encode(key) + ":" + B64Encode(cipher))
  }

  function Decrypt<M>(libs: Libs<M>, keyB64: string, dataB64: string, pw: bytes): Result<bytes, Problem> {
    match (B64Decode(keyB64), B64Decode(dataB64))
    case (Some(key), Some(cipher)) =>
      (match libs.open(key, cipher, pw)
       case Some(plain) => Ok(plain)
       case None => Err(BadPassword))
    case _ => Err(BadBase64)
  }

  function Native<M>(libs: Libs<M>, plain: bytes): Loaded<M> {
    match libs.unmarshal(plain)
    case Some(m) => Mac(m)
    case None => Failed(BadMacaroon)
  }

  function Parse<M>(libs: Libs<M>, data: string, ask: Callback): Loaded<M> {
    if Blank(data) then Failed(Empty)
    else if PREFIX <= data then
      var parts := Split(data);
      if |parts| != 3 then Failed(Format)
      else if ask.Nil? then NilCall
      else if ask.Refuses? then Failed(NoPassword)
      else
        match Decrypt(libs, parts[1], parts[2], ask.pw)
        case Err(e) => Failed(e)
        case Ok(plain) => Native(libs, plain)
    else
      match HexDecode(data)
      case None => Failed(BadHex)
      case Some(plain) => Native(libs, plain)
  }

  /** Hexadecimal text is never taken for an encrypted entry. */
  lemma HexUntagged(plain: bytes)
    ensures !(PREFIX <= HexEncode(plain))
    ensures Blank(HexEncode(plain)) <==> plain == []
  {
    HexEncodeChars(plain);
    var s := HexEncode(plain);
    assert HexVal(PREFIX[0]).None?;
    if plain != [] {
      assert HexVal(s[0]).Some?;
      assert s[0] != PREFIX[0] && !IsSpace(s[0]);
    }
  }

  lemma ParsePlain<M(!new)>(libs: Libs<M>, mac: M, ask: Callback)
    requires Lawful(libs) && libs.marshal(mac).Some?
    ensures var plain := libs.marshal(mac).value;
      Parse(libs, HexEncode(plain), ask) == if plain == [] then Failed(Empty) else Mac(mac)
  {
    HexUntagged(libs.marshal(mac).value);
    HexRoundTrip(libs.marshal(mac).value);
  }

  /** An encrypted entry splits into exactly its three parts. */
  lemma SplitTagged(a: string, b: string)
    requires NoColon(a) && NoColon(b)
    ensures Split(PREFIX + a + ":" + b) == ["snacl", a, b]
    ensures PREFIX <= PREFIX + a + ":" + b && !Blank(PREFIX + a + ":" + b)
  {
    var s := PREFIX + a + ":" + b;
    assert s == "snacl" + ":" + (a + ":" + b);
    SplitFirst("snacl", a + ":" + b);
    SplitFirst(a, b);
    SplitOne(b);
    assert s[0] == 's';
  }

  lemma EncodedNoColon(b: bytes)
    ensures NoColon(B64Encode(b))
  {
  }

  lemma ParseEncrypted<M(!new)>(libs: Libs<M>, mac: M, pw: bytes, salt: bytes, ask: Callback)
    requires Lawful(libs) && pw != [] && Print(libs, mac, pw, salt).Some?
    ensures var text := Print(libs, mac, pw, salt).value;
      && (ask.Nil? ==> Parse(libs, text, ask) == NilCall)
      && (ask == Answers(pw) ==> Parse(libs, text, ask) == Mac(mac))
  {
    var plain := libs.marshal(mac).value;
    var (key, cipher) := libs.seal(pw, salt, plain).value;
    EncodedNoColon(key);
    EncodedNoColon(cipher);
    SplitTagged(B64Encode(key), B64Encode(cipher));
    B64RoundTrip(key);
    B64RoundTrip(cipher);
    assert libs.open(key, cipher, pw) == Some(plain);
  }

  /** What a tagged entry yields, for any key, text and password: the macaroon if the
      password opens the text, and otherwise an error that says so. */
  lemma TaggedMeans<M>(libs: Libs<M>, key: bytes, cipher: bytes, pw: bytes)
    ensures var text := PREFIX + B64Encode(key) + ":" + B64Encode(cipher);
      && Parse(libs, text, Nil) == NilCall && Parse(libs, text, Refuses) == Failed(NoPassword)
      && (libs.open(key, cipher, pw).None? ==> Parse(libs, text, Answers(pw)) == Failed(BadPassword))
      && (libs.open(key, cipher, pw).Some? ==>
            var read := libs.unmarshal(libs.open(key, cipher, pw).value);
            Parse(libs, text, Answers(pw)) == if read.Some? then Mac(read.value) else Failed(BadMacaroon))
  {
    EncodedNoColon(key);
    EncodedNoColon(cipher);
    SplitTagged(B64Encode(key), B64Encode(cipher));
    B64RoundTrip(key);
    B64RoundTrip(cipher);
  }

  /** Which error belongs to which defect. */
  predicate FailsFor<M(==)>(libs: Libs<M>, data: string, ask: Callback, r: Loaded<M>) {
    var tagged, parts := PREFIX <= data, Split(data);
    && (r == Failed(Format) <==> tagged && |parts| != 3)
    && (r == Failed(NoPassword) <==> tagged && |parts| == 3 && ask.Refuses?)
    && (r == Failed(BadBase64) <==>
          tagged && |parts| == 3 && ask.Answers? && (B64Decode(parts[1]).None? || B64Decode(parts[2]).None?))
    && (r == Failed(BadPassword) <==>
          && tagged && |parts| == 3 && ask.Answers? && B64Decode(parts[1]).Some? && B64Decode(parts[2]).Some?
          && libs.open(B64Decode(parts[1]).value, B64Decode(parts[2]).value, ask.pw).None?)
    && (r == Failed(BadHex) <==> !Blank(data) && !tagged && HexDecode(data).None?)
    && r != Failed(Unsealed)
  }

  /** Loading what was stored returns the macaroon, whatever the password, unless
      an empty macaroon was stored without one. */
  lemma RoundTrip<M(!new)>(libs: Libs<M>, mac: M, pw: bytes, salt: bytes)
    requires Lawful(libs) && Print(libs, mac, pw, salt).Some?
    ensures Parse(libs, Print(libs, mac, pw, salt).value, Answers(pw)) == Mac(mac)
       <==> pw != [] || libs.marshal(mac) != Some([])
  {
    if pw == [] {
      ParsePlain(libs, mac, Answers(pw));
    } else {
      ParseEncrypted(libs, mac, pw, salt, Answers(pw));
    }
  }

  /** Loading a stored entry calls a nil callback exactly when it was stored with
      a password. */
  lemma NilCallIff<M(!new)>(libs: Libs<M>, mac: M, pw: bytes, salt: bytes)
    requires Lawful(libs) && Print(libs, mac, pw, salt).Some?
    ensures Parse(libs, Print(libs, mac, pw, salt).value, Nil).NilCall? <==> pw != []
  {
    if pw == [] {
      ParsePlain(libs, mac, Nil);
    } else {
      ParseEncrypted(libs, mac, pw, salt, Nil);
    }
  }

  // ------------------------------------------------ the entry and the jar

  class Entry<!M> {
    var name: string
    var data: string

    constructor ()
      ensures name == "" && data == ""
    {
      name, data := "", "";
    }

    method StoreMacaroon(libs: Libs<M>, mac: M, pw: bytes, salt: bytes) returns (err: Option<Problem>)
      modifies this`data
      ensures err.None? <==> Print(libs, mac, pw, salt).Some?
      ensures data == if err.None? then Print(libs, mac, pw, salt).value else old(data)
      ensures err.Some? ==> err.value == if libs.marshal(mac).None? then BadMacaroon else Unsealed
    {
      var macBytes := libs.marshal(mac);
      if macBytes.None? {
        return Some(BadMacaroon);
      }
      if |pw| == 0 {
        data := HexEncode(macBytes.value);
        return None;
      }
      var sealed := libs.seal(pw, salt, macBytes.value);
      if sealed.None? {
        return Some(Unsealed);
      }
      var (key, encryptedMac) := sealed.value;
      var keyB64 := B64Encode(key);
      var dataB64 := B64Encode(encryptedMac);
      data := PREFIX + keyB64 + ":" + dataB64;
      err := None;
    }

    method LoadMacaroon(libs: Libs<M>, ask: Callback) returns (r: Loaded<M>)
      ensures r == Parse(libs, data, ask)
      ensures r == Failed(Empty) <==> Blank(data)
      ensures r.NilCall? <==> ask.Nil? && PREFIX <= data && |Split(data)| == 3
      ensures FailsFor(libs, data, ask, r)
    {
      assert PREFIX <= data ==> !Blank(data) by {
        if PREFIX <= data {
          assert data[0] == PREFIX[0];
        }
      }
      if Blank(data) {
        return Failed(Empty);
      }
      var macBytes: bytes;
      if PREFIX <= data {
        var parts := Split(data);
        if |parts| != 3 {
          return Failed(Format);
        }
        match ask {
          case Nil => return NilCall;
          case Refuses => return Failed(NoPassword);
          case Answers(pw) =>
            var d := Decrypt(libs, parts[1], parts[2], pw);
            match d {
              case Err(e) => return Failed(e);
              case Ok(plain) => macBytes := plain;
            }
        }
      } else {
        var d := HexDecode(data);
        match d {
          case None => return Failed(BadHex);
          case Some(plain) => macBytes := plain;
        }
      }
      r := Native(libs, macBytes);
    }
  }

  /** The first entry of the jar with the wanted name. */
  method FindEntry<M>(jar: seq<Entry<M>>, name: string) returns (found: Option<Entry<M>>)
    ensures found.None? ==> forall k :: 0 <= k < |jar| ==> jar[k].name != name
    ensures found.Some? ==> exists k :: 0 <= k < |jar| && jar[k] == found.value && jar[k].name == name
                                        && forall j :: 0 <= j < k ==> jar[j].name != name
  {
    found := None;
    var k := 0;
    while k < |jar|
      invariant 0 <= k <= |jar|
      invariant found == None && forall j :: 0 <= j < k ==> jar[j].name != name
    {
      if jar[k].name == name {
        found := Some(jar[k]);
        return;
      }
      k := k + 1;
    }
  }

  /** A client stores the macaroon it read from its file without a password in a
      jar of one entry, looks the entry up by name, and loads it with a nil
      callback: the callback is never called, and it gets its macaroon back. */
  method ClientMacaroon<M(!new)>(libs: Libs<M>, file: bytes, fileName: string, salt: bytes) returns (r: Loaded<M>)
    requires Lawful(libs)
    ensures !r.NilCall?
    ensures match libs.unmarshal(file)
            case None => r == Failed(BadMacaroon)
            case Some(mac) =>
              match libs.marshal(mac)
              case None => r == Failed(BadMacaroon)
              case Some(plain) => r == if plain == [] then Failed(Empty) else Mac(mac)
  {
    var read := libs.unmarshal(file);
    if read.None? {
      return Failed(BadMacaroon);
    }
    var macEntry := new Entry<M>();
    var err := macEntry.StoreMacaroon(libs, read.value, [], salt);
    if err.Some? {
      return Failed(err.value);
    }
    macEntry.name := fileName;
    var jar, macName := [macEntry], macEntry.name;
    var found := FindEntry(jar, macName);
    assert jar[0].name == macName;
    ParsePlain(libs, read.value, Nil);
    r := found.value.LoadMacaroon(libs, Nil);
  }
}
