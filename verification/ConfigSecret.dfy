/** The config Secret: config.toml, one token per runner entry, and the custom CA bundle. */
module ConfigSecret {
  import opened Common

  const CONFIG_KEY := "config.toml"
  const TOKEN_PREFIX := "authentication-token-"
  const CA_KEY := "ca.crt"

  const CANNOT_CREATE := "cannot create config secret"
  const CANNOT_UPDATE := "cannot update config secret with the new configuration"

  type Data = map<string, string>

  datatype Outcome = Settled | RequeueNow | Error

  /** The Secret content for a config, the tokens by entry name and a CA bundle ("" for none). */
  ghost predicate IsRendered(data: Data, config: string, tokens: Data, ca: string) {
    && (forall k :: k in data <==>
                    k == CONFIG_KEY || (k == CA_KEY && ca != "") || (TOKEN_PREFIX <= k && k[|TOKEN_PREFIX|..] in tokens))
    && data[CONFIG_KEY] == config
    && (CA_KEY in data ==> data[CA_KEY] == ca)
    && forall name | name in tokens :: TOKEN_PREFIX + name in data && data[TOKEN_PREFIX + name] == tokens[name]
  }

  /** The tokens stored under the prefixed keys, and nothing else. */
  ghost predicate AreTokensOf(tokens: Data, data: Data) {
    && (forall name :: name in tokens <==> TOKEN_PREFIX + name in data)
    && forall name | name in tokens :: tokens[name] == data[TOKEN_PREFIX + name]
  }

  function StoredCA(data: Option<Data>): string {
    if data.Some? && CA_KEY in data.value then data.value[CA_KEY] else ""
  }

  /** The three kinds of key never overlap, whatever the entries are called. */
  lemma KeysApart(name: string)
    ensures TOKEN_PREFIX + name != CONFIG_KEY && TOKEN_PREFIX + name != CA_KEY && CONFIG_KEY != CA_KEY
    ensures TOKEN_PREFIX <= TOKEN_PREFIX + name && (TOKEN_PREFIX + name)[|TOKEN_PREFIX|..] == name
  {
  }

  /** Reading back a rendered Secret gives exactly the tokens and the CA that went in. */
  lemma RoundTrip(data: Data, config: string, tokens: Data, ca: string, recovered: Data)
    requires IsRendered(data, config, tokens, ca)
    requires AreTokensOf(recovered, data)
    ensures recovered == tokens
    ensures StoredCA(Some(data)) == ca
  {
  }

  /** The rendering, as a function. */
  ghost function Rendered(config: string, tokens: Data, ca: string): (data: Data)
    ensures IsRendered(data, config, tokens, ca)
  {
    KeysApart("");
    var keys := (set name | name in tokens :: TOKEN_PREFIX + name) + {CONFIG_KEY} + (if ca != "" then {CA_KEY} else {});
    assert forall k | TOKEN_PREFIX <= k :: k == TOKEN_PREFIX + k[|TOKEN_PREFIX|..];
    assert forall name :: TOKEN_PREFIX + name != CONFIG_KEY && TOKEN_PREFIX + name != CA_KEY && (TOKEN_PREFIX + name)[|TOKEN_PREFIX|..] == name by {
      forall name
        ensures TOKEN_PREFIX + name != CONFIG_KEY && TOKEN_PREFIX + name != CA_KEY && (TOKEN_PREFIX + name)[|TOKEN_PREFIX|..] == name
      {
        KeysApart(name);
      }
    }
    map k | k in keys ::
      if k == CONFIG_KEY then config else if k == CA_KEY then ca else tokens[k[|TOKEN_PREFIX|..]]
  }

  /** The tokens a stored Secret yields. */
  function TokensIn(data: Option<Data>): Data {
    var stored := data.GetOr(map[]);
    var names := set k | k in stored && TOKEN_PREFIX <= k :: k[|TOKEN_PREFIX|..];
    assert forall k | TOKEN_PREFIX <= k :: k == TOKEN_PREFIX + k[|TOKEN_PREFIX|..];
    map name | name in names :: stored[TOKEN_PREFIX + name]
  }

  lemma TokensInAre(data: Option<Data>, tokens: Data)
    ensures AreTokensOf(tokens, data.GetOr(map[])) <==> tokens == TokensIn(data)
  {
    var stored, all := data.GetOr(map[]), TokensIn(data);
    forall name
      ensures name in all <==> TOKEN_PREFIX + name in stored
      ensures name in all ==> all[name] == stored[TOKEN_PREFIX + name]
    {
      KeysApart(name);
      var key := TOKEN_PREFIX + name;
      assert key in stored ==> key[|TOKEN_PREFIX|..] in all;
      if name in all {
        var k :| k in stored && TOKEN_PREFIX <= k && k[|TOKEN_PREFIX|..] == name;
        assert k == TOKEN_PREFIX + name;
      }
    }
  }

  /** There is one rendering, so tokens of dropped entries do not survive it. */
  lemma RenderingIsUnique(d1: Data, d2: Data, config: string, tokens: Data, ca: string)
    requires IsRendered(d1, config, tokens, ca) && IsRendered(d2, config, tokens, ca)
    ensures d1 == d2
  {
    assert forall k :: k in d1 <==> k in d2;
    forall k | k in d1
      ensures d1[k] == d2[k]
    {
      if k != CONFIG_KEY && k != CA_KEY {
        assert k == TOKEN_PREFIX + k[|TOKEN_PREFIX|..];
      }
    }
  }

  class SecretStore {
    const api: Api
    /** None while the Secret does not exist. */
    var data: Option<Data>
    ghost var writes: nat

    constructor (api: Api, initial: Option<Data>)
      ensures this.api == api && data == initial && writes == 0
    {
      this.api := api;
      data := initial;
      writes := 0;
    }

    /** The tokens stored so far; none when the Secret does not exist; an error if it cannot
        be read. */
    method ExistingConfigTokens() returns (tokens: Option<Data>)
      modifies api
      ensures tokens.Some? <==> api.faults == old(api.faults)
      ensures api.faults >= old(api.faults)
      ensures tokens.Some? ==> AreTokensOf(tokens.value, data.GetOr(map[]))
    {
      var got := api.Call();
      if !got.Done? {
        return None;
      }
      var stored := data.GetOr(map[]);
      var out: Data := map[];
      var rest := stored.Keys;
      while rest != {}
        invariant rest <= stored.Keys
        invariant forall name :: name in out <==> TOKEN_PREFIX + name in stored.Keys - rest
        invariant forall name | name in out :: out[name] == stored[TOKEN_PREFIX + name]
      {
        var k :| k in rest;
        rest := rest - {k};
        if TOKEN_PREFIX <= k {
          assert k == TOKEN_PREFIX + k[|TOKEN_PREFIX|..];
          forall name
            ensures TOKEN_PREFIX + name == k <==> name == k[|TOKEN_PREFIX|..]
          {
            KeysApart(name);
          }
          out := out[k[|TOKEN_PREFIX|..] := stored[k]];
        } else {
          forall name
            ensures TOKEN_PREFIX + name != k
          {
            KeysApart(name);
          }
        }
      }
      tokens := Some(out);
    }

    method Render(config: string, tokens: Data, ca: string) returns (desired: Data)
      ensures IsRendered(desired, config, tokens, ca)
    {
      KeysApart("");
      desired := map[CONFIG_KEY := config];
      var rest := tokens.Keys;
      while rest != {}
        invariant rest <= tokens.Keys
        invariant forall k :: k in desired <==>
                              k == CONFIG_KEY || (TOKEN_PREFIX <= k && k[|TOKEN_PREFIX|..] in tokens.Keys - rest)
        invariant desired[CONFIG_KEY] == config
        invariant forall name | name in tokens.Keys - rest ::
                    TOKEN_PREFIX + name in desired && desired[TOKEN_PREFIX + name] == tokens[name]
      {
        var name :| name in rest;
        KeysApart(name);
        forall k | TOKEN_PREFIX <= k
          ensures k == TOKEN_PREFIX + name <==> k[|TOKEN_PREFIX|..] == name
        {
          assert k == TOKEN_PREFIX + k[|TOKEN_PREFIX|..];
        }
        rest := rest - {name};
        desired := desired[TOKEN_PREFIX + name := tokens[name]];
      }
      if ca != "" {
        forall name
          ensures TOKEN_PREFIX + name != CA_KEY
        {
          KeysApart(name);
        }
        assert !(TOKEN_PREFIX <= CA_KEY);
        desired := desired[CA_KEY := ca];
      }
    }

    /** Creates the Secret, or replaces its content when it differs. Only a pass that found
        it exactly as rendered goes on. A write that fails is told in `error`, a failed read is not. */
    method Secret(config: string, tokens: Data, ca: string) returns (v: Outcome, error: string)
      modifies this, api
      ensures api.faults >= old(api.faults)
      ensures v.Error? <==> api.faults != old(api.faults)
      ensures v.Settled? ==> data == old(data) && data.Some? && IsRendered(data.value, config, tokens, ca)
      ensures v.RequeueNow? ==> data != old(data) && data.Some? && IsRendered(data.value, config, tokens, ca)
      ensures v.Error? ==> data == old(data) || (data.Some? && IsRendered(data.value, config, tokens, ca))
      ensures v.Settled? ==> writes == old(writes)
      ensures error != "" ==> v.Error? && error == if old(data).None? then CANNOT_CREATE else CANNOT_UPDATE
      ensures v.Error? && error == "" ==> data == old(data)
    {
      var desired := Render(config, tokens, ca);
      var got := api.Call();
      if !got.Done? {
        return Error, "";
      }
      if data == Some(desired) {
        return Settled, "";
      }
      error := if data.None? then CANNOT_CREATE else CANNOT_UPDATE;
      var put := api.Call();
      if put.Applied() {
        data := Some(desired);
        writes := writes + 1;
      }
      if put.Done? {
        return RequeueNow, "";
      }
      v := Error;
    }
  }
}
