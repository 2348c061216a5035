/** The CLI's credentials (src/cli/utils/credentials.ts): the environment first, then the
    credentials file, which other tools share; saving merges into the file, clearing removes only the
    two secrets. */
module CredentialStore {
  import opened Js
  import opened Types
  import opened Fs

  const DefaultApiUrl: string := "https://api.production.smoo.ai"
  const DefaultAuthUrl: string := "https://auth.production.smoo.ai/token"

  /** The process environment. */
  type Env = map<string, string>

  /** `process.env[k]` when it is set and not empty (a truthy environment value). */
  function EnvValue(env: Env, k: string): Option<string> {
    if k in env && env[k] != "" then Some(env[k]) else None
  }

  /** `parsed[k]` when it is a non-empty string. */
  function FileValue(m: map<string, Json>, k: string): Option<string> {
    if k in m && m[k].JStr? && m[k].s != "" then Some(m[k].s) else None
  }

  predicate EnvComplete(env: Env) {
    EnvValue(env, "SMOOAI_CLIENT_ID").Some? && EnvValue(env, "SMOOAI_CLIENT_SECRET").Some?
    && EnvValue(env, "SMOOAI_ORG_ID").Some?
  }

  /** `loadCredentials()`: the environment when its three variables are set, otherwise the file when it
      exists, parses to an object and names the three fields; otherwise none. */
  function LoadCredentials(env: Env, f: File): (r: Option<Credentials>)
    // the environment wins, whatever the file holds
    ensures EnvComplete(env) ==>
              r == Some(Credentials(env["SMOOAI_CLIENT_ID"], env["SMOOAI_CLIENT_SECRET"], env["SMOOAI_ORG_ID"],
                                    EnvValue(env, "SMOOAI_API_URL").GetOr(DefaultApiUrl),
                                    EnvValue(env, "SMOOAI_AUTH_URL").GetOr(DefaultAuthUrl)))
    // otherwise only a parsed object with the three fields yields credentials, and those are its fields
    ensures !EnvComplete(env) ==>
              (r.Some? <==> f.Present? && f.content.Parsed? && f.content.value.JObj?
                            && FileValue(f.content.value.fields, "clientId").Some?
                            && FileValue(f.content.value.fields, "clientSecret").Some?
                            && FileValue(f.content.value.fields, "orgId").Some?)
    ensures !EnvComplete(env) && r.Some? ==>
              var m := f.content.value.fields;
              r.value == Credentials(m["clientId"].s, m["clientSecret"].s, m["orgId"].s,
                                     FileValue(m, "apiUrl").GetOr(DefaultApiUrl), FileValue(m, "authUrl").GetOr(DefaultAuthUrl))
    // a missing or empty URL falls back to its production default on both paths
    ensures r.Some? ==> r.value.apiUrl != "" && r.value.authUrl != ""
  {
    if EnvComplete(env) then
      Some(Credentials(env["SMOOAI_CLIENT_ID"], env["SMOOAI_CLIENT_SECRET"], env["SMOOAI_ORG_ID"],
                       EnvValue(env, "SMOOAI_API_URL").GetOr(DefaultApiUrl),
                       EnvValue(env, "SMOOAI_AUTH_URL").GetOr(DefaultAuthUrl)))
    else
      match f
      case Absent => None
      case Unreadable(_) => None
      case Present(Malformed(_)) => None
      case Present(Parsed(parsed)) =>
        // `parsed.clientId` on `null` throws, and the catch turns that into null as well
        if Property(Some(parsed), "clientId").Err? || !parsed.JObj? then None
        else
          var m := parsed.fields;
          if FileValue(m, "clientId").None? || FileValue(m, "clientSecret").None? || FileValue(m, "orgId").None? then None
          else Some(Credentials(m["clientId"].s, m["clientSecret"].s, m["orgId"].s,
                                FileValue(m, "apiUrl").GetOr(DefaultApiUrl), FileValue(m, "authUrl").GetOr(DefaultAuthUrl)))
  }

  /** `getCredentialsOrExit()`: the credentials, or exit status 1 when there are none. */
  function GetCredentialsOrExit(env: Env, f: File): (r: Result<Credentials>)
    ensures r.Ok? <==> LoadCredentials(env, f).Some?
    ensures r.Ok? ==> r.value == LoadCredentials(env, f).value
    ensures r.Err? ==> r.error == Exited(1)
  {
    match LoadCredentials(env, f)
    case Some(c) => Ok(c)
    case None => Err(Exited(1))
  }

  /** The keys a credential set writes. */
  function CredentialFields(c: Credentials): map<string, Json> {
    map["clientId" := JStr(c.clientId), "clientSecret" := JStr(c.clientSecret), "orgId" := JStr(c.orgId),
        "apiUrl" := JStr(c.apiUrl), "authUrl" := JStr(c.authUrl)]
  }

  /** What the merge starts from: the fields of the existing file when it parses to an object,
      otherwise `{}`. */
  function ExistingFields(f: File): map<string, Json> {
    if f.Present? && f.content.Parsed? && f.content.value.JObj? then f.content.value.fields else map[]
  }

  /** `{ ...existing, ...credentials }`. */
  function Merge(existing: map<string, Json>, c: Credentials): (m: map<string, Json>)
    ensures forall k :: k in CredentialFields(c) ==> k in m && m[k] == CredentialFields(c)[k]
    ensures forall k :: k !in CredentialFields(c) ==> (k in m <==> k in existing) && (k in m ==> m[k] == existing[k])
  {
    existing + CredentialFields(c)
  }

  /** The file after `saveCredentials(c)`. */
  function SavedFile(f: File, c: Credentials): File {
    Present(Parsed(JObj(Merge(ExistingFields(f), c))))
  }

  /** The file after `clearCredentials()`: an object loses `clientId` and `clientSecret`; anything
      else (no file, an unreadable or unparsable one, a non-object) stays as it was. */
  function ClearedFile(f: File): (r: File)
    ensures f.Present? && f.content.Parsed? && f.content.value.JObj? ==>
              r == Present(Parsed(JObj(f.content.value.fields - {"clientId", "clientSecret"})))
    ensures !(f.Present? && f.content.Parsed? && f.content.value.JObj?) ==> r == f
  {
    if f.Present? && f.content.Parsed? && f.content.value.JObj? then
      Present(Parsed(JObj(f.content.value.fields - {"clientId", "clientSecret"})))
    else f
  }

  /** With the environment unset, credentials saved with every field non-empty load back as saved. */
  lemma SaveThenLoad(env: Env, f: File, c: Credentials)
    requires !EnvComplete(env)
    requires c.clientId != "" && c.clientSecret != "" && c.orgId != "" && c.apiUrl != "" && c.authUrl != ""
    ensures LoadCredentials(env, SavedFile(f, c)) == Some(c)
  {
    var m := Merge(ExistingFields(f), c);
    assert FileValue(m, "clientId") == Some(c.clientId);
    assert FileValue(m, "clientSecret") == Some(c.clientSecret);
    assert FileValue(m, "orgId") == Some(c.orgId);
    assert FileValue(m, "apiUrl") == Some(c.apiUrl);
    assert FileValue(m, "authUrl") == Some(c.authUrl);
  }

  /** With the environment unset, nothing loads after a clear. */
  lemma ClearThenLoad(env: Env, f: File)
    requires !EnvComplete(env)
    ensures LoadCredentials(env, ClearedFile(f)) == None
  {
  }

  /** Clearing keeps every key but the two secrets, and clearing twice is clearing once. */
  lemma ClearKeepsOthers(f: File, k: string)
    requires f.Present? && f.content.Parsed? && f.content.value.JObj?
    requires k != "clientId" && k != "clientSecret"
    ensures var m := ClearedFile(f).content.value.fields;
            (k in m <==> k in f.content.value.fields) && (k in m ==> m[k] == f.content.value.fields[k])
    ensures ClearedFile(ClearedFile(f)) == ClearedFile(f)
  {
    var once := f.content.value.fields - {"clientId", "clientSecret"};
    assert once - {"clientId", "clientSecret"} == once;
  }

  /** The credentials file, `~/.smooai/credentials.json`. */
  class CredentialsFile {
    var file: File

    constructor (initial: File)
      ensures file == initial
    {
      file := initial;
    }

    /** `saveCredentials(credentials)`: the existing document (or `{}`) with the five fields over it. */
    method Save(credentials: Credentials)
      modifies this
      ensures file == SavedFile(old(file), credentials)
    {
      var existing: map<string, Json> := map[];
      if file.Present? && file.content.Parsed? && file.content.value.JObj? {
        existing := file.content.value.fields;
      }
      var merged := existing + CredentialFields(credentials);
      file := Present(Parsed(JObj(merged)));
    }

    /** `clearCredentials()`: `delete existing.clientId; delete existing.clientSecret`, then write. */
    method Clear()
      modifies this
      ensures file == ClearedFile(old(file))
    {
      if file.Absent? {
        return;
      }
      if file.Present? && file.content.Parsed? && file.content.value.JObj? {
        var existing := file.content.value.fields;
        existing := existing - {"clientId"};
        existing := existing - {"clientSecret"};
        assert existing == old(file).content.value.fields - {"clientId", "clientSecret"};
        file := Present(Parsed(JObj(existing)));
      }
    }
  }
}
