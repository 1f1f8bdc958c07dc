/** The session store: key naming over a shared string-keyed cache. The cache
    client is an object of its own, because the authorizer's session and the
    authenticator's session are two `Session` objects over the same client. */
module Session {
  import opened Types

  /** The reply of a `get` on `key`: the backend's error, or the value if
      the key is set. */
  function Read(data: map<string, string>, failing: set<string>, key: string): (r: Result<Option<string>>)
    ensures key in failing ==> r == Err(BackendError)
    ensures key !in failing && key in data ==> r == Ok(Some(data[key]))
    ensures key !in failing && key !in data ==> r == Ok(None)
  {
    if key in failing then Err(BackendError)
    else if key in data then Ok(Some(data[key]))
    else Ok(None)
  }

  /** The contents after a `set` of `key`; a failing call changes nothing. */
  function Write(data: map<string, string>, failing: set<string>, key: string, value: string): map<string, string> {
    if key in failing then data else data[key := value]
  }

  /** The contents after a `del` of `key`; a failing call changes nothing. */
  function Remove(data: map<string, string>, failing: set<string>, key: string): map<string, string> {
    if key in failing then data else data - {key}
  }

  /** A cache client (Redis). `failing` holds the keys on which the backend
      reports an error; every call is independently fallible in this sense.
      A successful `set` replies "OK" and a successful `del` replies 1. */
  class RedisClient {
    var data: map<string, string>
    const failing: set<string>

    constructor (data: map<string, string>, failing: set<string>)
      ensures this.data == data && this.failing == failing
    {
      this.data := data;
      this.failing := failing;
    }

    method Set(key: string, value: string) returns (r: Result<string>)
      modifies this`data
      ensures data == Write(old(data), failing, key, value)
      ensures r == if key in failing then Err(BackendError) else Ok("OK")
    {
      if key in failing {
        r := Err(BackendError);
      } else {
        data := data[key := value];
        r := Ok("OK");
      }
    }

    method Get(key: string) returns (r: Result<Option<string>>)
      ensures r == Read(data, failing, key)
    {
      if key in failing {
        r := Err(BackendError);
      } else if key in data {
        r := Ok(Some(data[key]));
      } else {
        r := Ok(None);
      }
    }

    method Del(key: string) returns (r: Result<int>)
      modifies this`data
      ensures data == Remove(old(data), failing, key)
      ensures r == if key in failing then Err(BackendError) else Ok(1)
    {
      if key in failing {
        r := Err(BackendError);
      } else {
        data := data - {key};
        r := Ok(1);
      }
    }
  }

  /** The key of the refresh token issued with `accessToken`: the token can
      be read back from the key, and the key begins with 'r', where no alias
      key does. */
  function RefreshTokenKey(accessToken: string): (k: string)
    ensures |k| == 8 + |accessToken| && k[8..] == accessToken
    ensures k[0] == 'r'
  {
    "refresh-" + accessToken
  }

  /** The key of the server token that stands in for `clientToken`: the
      client token can be read back from the key, which begins with 'a'. */
  function AliasKey(clientToken: string): (k: string)
    ensures |k| == 6 + |clientToken| && k[6..] == clientToken
    ensures k[0] == 'a'
  {
    "alias-" + clientToken
  }

  /** Distinct access tokens have distinct refresh-token keys. */
  lemma RefreshTokenKeyInjective(a: string, b: string)
    ensures RefreshTokenKey(a) == RefreshTokenKey(b) ==> a == b
  {
    if RefreshTokenKey(a) == RefreshTokenKey(b) {
      assert a == RefreshTokenKey(a)[8..];
      assert b == RefreshTokenKey(b)[8..];
    }
  }

  /** The refresh-token and alias namespaces never share a key. */
  lemma NamespacesDisjoint(a: string, b: string)
    ensures RefreshTokenKey(a) != AliasKey(b)
  {
    assert RefreshTokenKey(a)[0] == 'r' && AliasKey(b)[0] == 'a';
  }

  /** Writing a refresh token and reading it back gives it, as long as the
      backend does not fail on its key. */
  lemma RefreshTokenRoundTrip(data: map<string, string>, failing: set<string>, a: string, r: string)
    requires RefreshTokenKey(a) !in failing
    ensures Read(Write(data, failing, RefreshTokenKey(a), r), failing, RefreshTokenKey(a)) == Ok(Some(r))
  {
  }

  /** Deleting the refresh token of `a` removes that key and keeps every other
      key as it was. */
  lemma RemoveKeepsOthers(data: map<string, string>, failing: set<string>, a: string, k: string)
    requires k != RefreshTokenKey(a)
    ensures Read(Remove(data, failing, RefreshTokenKey(a)), failing, k) == Read(data, failing, k)
    ensures RefreshTokenKey(a) !in failing ==> Read(Remove(data, failing, RefreshTokenKey(a)), failing, RefreshTokenKey(a)) == Ok(None)
  {
  }

  /** A `set` touches only its own key. */
  lemma WriteKeepsOthers(data: map<string, string>, failing: set<string>, key: string, value: string, k: string)
    requires k != key
    ensures Read(Write(data, failing, key, value), failing, k) == Read(data, failing, k)
  {
  }

  class Session {
    const client: RedisClient

    constructor (client: RedisClient)
      ensures this.client == client
    {
      this.client := client;
    }

    method SetRefreshToken(accessToken: string, refreshToken: string) returns (r: Result<string>)
      modifies client`data
      ensures client.data == Write(old(client.data), client.failing, RefreshTokenKey(accessToken), refreshToken)
      ensures r == if RefreshTokenKey(accessToken) in client.failing then Err(BackendError) else Ok("OK")
    {
      r := client.Set(RefreshTokenKey(accessToken), refreshToken);
    }

    method GetRefreshToken(accessToken: string) returns (r: Result<Option<string>>)
      ensures r == Read(client.data, client.failing, RefreshTokenKey(accessToken))
    {
      r := client.Get(RefreshTokenKey(accessToken));
    }

    method DelRefreshToken(accessToken: string) returns (r: Result<int>)
      modifies client`data
      ensures client.data == Remove(old(client.data), client.failing, RefreshTokenKey(accessToken))
      ensures r == if RefreshTokenKey(accessToken) in client.failing then Err(BackendError) else Ok(1)
    {
      r := client.Del(RefreshTokenKey(accessToken));
    }

    /** Reads the raw key `accessToken`: no prefix, no decoding. */
    method GetUser(accessToken: string) returns (r: Result<Option<string>>)
      ensures r == Read(client.data, client.failing, accessToken)
    {
      r := client.Get(accessToken);
    }

    method GetAlias(clientToken: string) returns (r: Result<Option<string>>)
      ensures r == Read(client.data, client.failing, AliasKey(clientToken))
    {
      r := client.Get(AliasKey(clientToken));
    }

    method SetAlias(clientToken: string, serverToken: string) returns (r: Result<string>)
      modifies client`data
      ensures client.data == Write(old(client.data), client.failing, AliasKey(clientToken), serverToken)
      ensures r == if AliasKey(clientToken) in client.failing then Err(BackendError) else Ok("OK")
    {
      r := client.Set(AliasKey(clientToken), serverToken);
    }

    method DelAlias(clientToken: string) returns (r: Result<int>)
      modifies client`data
      ensures client.data == Remove(old(client.data), client.failing, AliasKey(clientToken))
      ensures r == if AliasKey(clientToken) in client.failing then Err(BackendError) else Ok(1)
    {
      r := client.Del(AliasKey(clientToken));
    }
  }
}
