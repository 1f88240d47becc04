/** Stored secrets: a sealed value opens only under the associated data it was sealed with, and
    every column of every row has its own.  The cipher is ideal (authenticated encryption with
    associated data, RFC 5116 sections 2.1 and 2.2). */
module Secrets {
  import opened Options

  /** What a secret column holds: text without the prefix of encrypted values, a sealed value,
      or something with the prefix that does not open. */
  datatype Stored = Plain(text: string) | Sealed(aad: string, nonce: nat, body: string) | Garbled

  function Encrypt(aad: string, nonce: nat, text: string): Stored {
    Sealed(aad, nonce, text)
  }

  function Decrypt(aad: string, v: Stored): Result<string> {
    if v.Sealed? && v.aad == aad then Ok(v.body) else Err
  }

  predicate IsEncrypted(v: Stored) {
    !v.Plain?
  }

  function ProjectAad(id: string): string {
    "projects/" + id + "/env_vars"
  }

  const SECRET := "tunnel_secret"
  const TOKEN := "cf_api_token"

  function TunnelAad(id: string, field: string): string {
    "tunnels/" + id + "/" + field
  }

  /** A place a secret is kept in. */
  datatype Column = ProjectEnv(id: string) | TunnelSecret(id: string) | TunnelToken(id: string)

  function Aad(c: Column): string {
    match c
    case ProjectEnv(id) => ProjectAad(id)
    case TunnelSecret(id) => TunnelAad(id, SECRET)
    case TunnelToken(id) => TunnelAad(id, TOKEN)
  }

  lemma Sandwich(front: string, id: string, back: string, other: string)
    requires front + id + back == front + other + back
    ensures id == other
  {
    var s := front + id + back;
    assert s[|front|..|s| - |back|] == id;
    assert s == front + other + back;
    assert s[|front|..|s| - |back|] == other;
  }

  /** Different columns have different associated data, whatever characters the ids contain. */
  lemma AadInjective(a: Column, b: Column)
    requires Aad(a) == Aad(b)
    ensures a == b
  {
    var s := Aad(a);
    assert a.ProjectEnv? <==> s[0] == 'p';
    assert b.ProjectEnv? <==> s[0] == 'p';
    if a.ProjectEnv? {
      Sandwich("projects/", a.id, "/env_vars", b.id);
    } else {
      assert a.TunnelSecret? <==> s[|s| - 1] == 't';
      assert b.TunnelSecret? <==> s[|s| - 1] == 't';
      var back := "/" + if a.TunnelSecret? then SECRET else TOKEN;
      assert s == "tunnels/" + a.id + back == "tunnels/" + b.id + back;
      Sandwich("tunnels/", a.id, back, b.id);
    }
  }

  /** A sealed value read from another row or column is refused. */
  lemma OpensOnlyAtHome(a: Column, b: Column, nonce: nat, text: string)
    ensures Decrypt(Aad(b), Encrypt(Aad(a), nonce, text)) == if a == b then Ok(text) else Err
  {
    if Aad(a) == Aad(b) {
      AadInjective(a, b);
    }
  }

  /** The text that names a column, so that what is stored can be told to open or not. */
  lemma OpensUnder(c: Column, nonce: nat, text: string, aad: string)
    ensures Decrypt(aad, Encrypt(Aad(c), nonce, text)).Ok? <==>
      && (c.ProjectEnv? ==> aad == "projects/" + c.id + "/env_vars")
      && (c.TunnelSecret? ==> aad == "tunnels/" + c.id + "/tunnel_secret")
      && (c.TunnelToken? ==> aad == "tunnels/" + c.id + "/cf_api_token")
  {
    var back := if c.ProjectEnv? then "/env_vars" else if c.TunnelSecret? then "/tunnel_secret" else "/cf_api_token";
    assert Aad(c) == (if c.ProjectEnv? then "projects/" else "tunnels/") + c.id + back;
  }
}
