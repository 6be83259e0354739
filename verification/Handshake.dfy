/**
 The rewrite of the gateway handshake: the real token goes in, the nonce is signed with
 it, and the rest of the message is left alone.
 */
module Handshake {
  import opened Prelude
  import opened Json
  import Hex

  type Mac = (string, string) -> seq<Hex.Byte>  // HMAC-SHA-256 of key and message

  /** sign_nonce: the MAC of the nonce under the token, in lower-case hex. */
  function SignNonce(mac: Mac, nonce: string, token: string): string {
    Hex.Encode(mac(token, nonce))
  }

  function InjectToken(params: Json, token: string): Json {
    var auth := Field(params, "auth");
    if auth.Some? && auth.value.Obj? then Put(params, "auth", Put(auth.value, "token", Str(token))) else params
  }

  function Resign(params: Json, token: string, mac: Mac): Json {
    var nonce := Field(params, "nonce");
    if nonce.Some? && nonce.value.Str? then Put(params, "signedNonce", Str(SignNonce(mac, nonce.value.text, token)))
    else params
  }

  function Rewrite(j: Json, token: string, mac: Mac): Json {
    match Field(j, "params")
    case None => j
    case Some(params) => Put(j, "params", Resign(InjectToken(params, token), token, mac))
  }

  // -- What the rewrite amounts to, path by path ---------------------------------------

  const AUTH: Path := [Key("params"), Key("auth")]
  const NONCE: Path := [Key("params"), Key("nonce")]
  const TOKEN: Path := [Key("params"), Key("auth"), Key("token")]
  const SIGNED: Path := [Key("params"), Key("signedNonce")]

  ghost predicate Outside(p: Path) {
    !(TOKEN <= p) && !(SIGNED <= p)
  }

  function TokenAfter(j: Json, token: string): Option<Json> {
    if At(j, AUTH).Some? && At(j, AUTH).value.Obj? then Some(Str(token)) else At(j, TOKEN)
  }

  function SignedAfter(j: Json, token: string, mac: Mac): Option<Json> {
    if At(j, NONCE).Some? && At(j, NONCE).value.Str?
    then Some(Str(SignNonce(mac, At(j, NONCE).value.text, token)))
    else At(j, SIGNED)
  }

  /** r is j with the token put in place and the nonce signed, and nothing else changed. */
  ghost predicate OnlySigned(j: Json, r: Json, token: string, mac: Mac) {
    && (forall p: Path :: Outside(p) ==> LabelAt(r, p) == LabelAt(j, p))
    && At(r, TOKEN) == TokenAfter(j, token)
    && At(r, SIGNED) == SignedAfter(j, token, mac)
  }

  lemma {:induction false} AtConcat(j: Json, p: Path, q: Path)
    ensures At(j, p + q) == match At(j, p) { case None => None case Some(v) => At(v, q) }
    decreases |p|
  {
    if p == [] {
      assert p + q == q;
    } else {
      assert (p + q)[1..] == p[1..] + q;
      if Child(j, p[0]).Some? {
        AtConcat(Child(j, p[0]).value, p[1..], q);
      }
    }
  }

  lemma AtTwo(j: Json, a: string, b: string)
    ensures At(j, [Key(a), Key(b)]) == match Field(j, a) { case None => None case Some(c) => Field(c, b) }
  {
    assert [Key(a), Key(b)][1..] == [Key(b)];
    if Field(j, a).Some? {
      AtOne(Field(j, a).value, Key(b));
    }
  }

  lemma AtToken(j: Json)
    ensures At(j, TOKEN) == match At(j, AUTH) { case None => None case Some(auth) => Field(auth, "token") }
  {
    assert TOKEN == AUTH + [Key("token")];
    AtConcat(j, AUTH, [Key("token")]);
    if At(j, AUTH).Some? {
      AtOne(At(j, AUTH).value, Key("token"));
    }
  }

  /** Putting a field in leaves every path alone that does not go through the field. */
  lemma PutElsewhere(j: Json, key: string, value: Json, p: Path)
    requires j.Obj? && (p == [] || p[0] != Key(key))
    ensures LabelAt(Put(j, key, value), p) == LabelAt(j, p)
  {
  }

  lemma PutBelow(j: Json, key: string, value: Json, p: Path)
    requires j.Obj? && p != [] && p[0] == Key(key)
    ensures LabelAt(Put(j, key, value), p) == LabelAt(value, p[1..])
  {
  }

  lemma TokenFrame(params: Json, token: string, p: Path)
    requires !(TOKEN[1..] <= p)
    ensures LabelAt(InjectToken(params, token), p) == LabelAt(params, p)
  {
    var auth := Field(params, "auth");
    if auth.Some? && auth.value.Obj? {
      var auth' := Put(auth.value, "token", Str(token));
      if p != [] && p[0] == Key("auth") {
        PutBelow(params, "auth", auth', p);
        assert TOKEN[1..] <= p <==> p[1..] != [] && p[1..][0] == Key("token");
        PutElsewhere(auth.value, "token", Str(token), p[1..]);
        assert At(params, p) == At(auth.value, p[1..]);
      } else {
        PutElsewhere(params, "auth", auth', p);
      }
    }
  }

  lemma SignedFrame(params: Json, token: string, mac: Mac, p: Path)
    requires p == [] || p[0] != Key("signedNonce")
    ensures LabelAt(Resign(params, token, mac), p) == LabelAt(params, p)
  {
    if Resign(params, token, mac) != params {
      PutElsewhere(params, "signedNonce", Field(Resign(params, token, mac), "signedNonce").value, p);
    }
  }

  lemma RewriteFrame(j: Json, token: string, mac: Mac, p: Path)
    requires Outside(p)
    ensures LabelAt(Rewrite(j, token, mac), p) == LabelAt(j, p)
  {
    var params := Field(j, "params");
    if params.Some? {
      var injected := InjectToken(params.value, token);
      var signed := Resign(injected, token, mac);
      if p != [] && p[0] == Key("params") {
        var q := p[1..];
        assert p == [Key("params")] + q;
        assert SIGNED == [Key("params")] + [Key("signedNonce")];
        assert TOKEN == [Key("params")] + TOKEN[1..];
        assert SIGNED <= p <==> q != [] && q[0] == Key("signedNonce");
        assert TOKEN <= p <==> TOKEN[1..] <= q;
        TokenFrame(params.value, token, q);
        SignedFrame(injected, token, mac, q);
        PutBelow(j, "params", signed, p);
        assert At(j, p) == At(params.value, q);
      } else {
        PutElsewhere(j, "params", signed, p);
      }
    }
  }

  lemma RewriteOnlySigns(j: Json, token: string, mac: Mac)
    ensures OnlySigned(j, Rewrite(j, token, mac), token, mac)
  {
    var r := Rewrite(j, token, mac);
    forall p: Path | Outside(p) ensures LabelAt(r, p) == LabelAt(j, p) {
      RewriteFrame(j, token, mac, p);
    }
    TokenPlaced(j, token, mac);
    SignaturePlaced(j, token, mac);
  }

  lemma TokenPlaced(j: Json, token: string, mac: Mac)
    ensures At(Rewrite(j, token, mac), TOKEN) == TokenAfter(j, token)
  {
    hide At;
    var r := Rewrite(j, token, mac);
    AtToken(j);
    AtToken(r);
    AtTwo(j, "params", "auth");
    AtTwo(r, "params", "auth");
  }

  lemma SignaturePlaced(j: Json, token: string, mac: Mac)
    ensures At(Rewrite(j, token, mac), SIGNED) == SignedAfter(j, token, mac)
  {
    hide At;
    var r := Rewrite(j, token, mac);
    AtTwo(j, "params", "nonce");
    AtTwo(j, "params", "signedNonce");
    AtTwo(r, "params", "signedNonce");
  }

  /**
   The rewrite is the one tree that agrees with the message everywhere but at
   params.auth.token, which holds the token if auth is an object, and at
   params.signedNonce, which holds the signature if nonce is a string.
   */
  lemma RewriteIff(j: Json, r: Json, token: string, mac: Mac)
    ensures r == Rewrite(j, token, mac) <==> OnlySigned(j, r, token, mac)
  {
    var w := Rewrite(j, token, mac);
    RewriteOnlySigns(j, token, mac);
    if OnlySigned(j, r, token, mac) {
      forall p: Path ensures LabelAt(r, p) == LabelAt(w, p) {
        if !Outside(p) {
          var root := if TOKEN <= p then TOKEN else SIGNED;
          assert p == root + p[|root|..];
          AtConcat(r, root, p[|root|..]);
          AtConcat(w, root, p[|root|..]);
        }
      }
      LabelsDecide(r, w);
    }
  }

  lemma RewriteIdempotent(j: Json, token: string, mac: Mac)
    ensures Rewrite(Rewrite(j, token, mac), token, mac) == Rewrite(j, token, mac)
  {
    var params := Field(j, "params");
    if params.Some? {
      var injected := InjectToken(params.value, token);
      var signed := Resign(injected, token, mac);
      InjectTwice(params.value, token, mac);
      PutTwice(j, "params", signed);
    }
  }

  lemma PutTwice(j: Json, key: string, value: Json)
    requires j.Obj?
    ensures Put(Put(j, key, value), key, value) == Put(j, key, value)
  {
    assert j.fields[key := value][key := value] == j.fields[key := value];
  }

  lemma InjectTwice(params: Json, token: string, mac: Mac)
    ensures var once := Resign(InjectToken(params, token), token, mac);
            Resign(InjectToken(once, token), token, mac) == once
  {
    var once := Resign(InjectToken(params, token), token, mac);
    var auth := Field(once, "auth");
    if auth.Some? && auth.value.Obj? {
      assert auth.value.fields["token" := Str(token)] == auth.value.fields;
      assert once.fields["auth" := auth.value] == once.fields;
    }
    assert InjectToken(once, token) == once;
    if Field(once, "nonce").Some? && Field(once, "nonce").value.Str? {
      assert Field(InjectToken(params, token), "nonce") == Field(once, "nonce");
      assert once.fields["signedNonce" := Field(once, "signedNonce").value] == once.fields;
    }
  }

  /** Field by field the top level is kept, so the message still calls the same method. */
  lemma RewriteKeepsOtherFields(j: Json, token: string, mac: Mac, key: string)
    requires key != "params"
    ensures Field(Rewrite(j, token, mac), key) == Field(j, key)
  {
  }

  /**
   What the gateway finds: the token where an auth object was, and under signedNonce text
   that decodes to the MAC, under the token as key, of the nonce it had sent.
   */
  lemma GatewayFinds(j: Json, token: string, mac: Mac, nonce: string)
    ensures var r := Rewrite(j, token, mac);
            && (At(j, [Key("params"), Key("nonce")]) == Some(Str(nonce)) ==>
                  && At(r, [Key("params"), Key("nonce")]) == Some(Str(nonce))
                  && At(r, [Key("params"), Key("signedNonce")]).Some?
                  && var signed := At(r, [Key("params"), Key("signedNonce")]).value;
                     signed.Str? && Hex.Decode(signed.text) == Some(mac(token, nonce)))
            && (At(j, [Key("params"), Key("auth")]).Some? && At(j, [Key("params"), Key("auth")]).value.Obj? ==>
                  At(r, [Key("params"), Key("auth"), Key("token")]) == Some(Str(token)))
            && At(r, [Key("method")]) == At(j, [Key("method")]) && At(r, [Key("id")]) == At(j, [Key("id")])
  {
    var r := Rewrite(j, token, mac);
    RewriteOnlySigns(j, token, mac);
    Hex.DecodeEncode(mac(token, nonce));
    RewriteKeepsOtherFields(j, token, mac, "method");
    RewriteKeepsOtherFields(j, token, mac, "id");
    AtOne(j, Key("method"));
    AtOne(r, Key("method"));
    AtOne(j, Key("id"));
    AtOne(r, Key("id"));
    assert NONCE[1] != SIGNED[1] by {
      assert |"nonce"| != |"signedNonce"|;
    }
    assert Outside(NONCE);
    assert LabelAt(r, NONCE) == LabelAt(j, NONCE);
  }
}
