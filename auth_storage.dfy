/**
 * auth-storage.js: the auth token kept in the browser's key-value storage
 * under one configured key.  `items` is that storage; `storageThrows` says
 * whether the storage call fails (storage disabled, quota exceeded), which
 * the code swallows.
 */
module AuthStorage {

  /** The token read back from `items`: `getItem(key) || ''`. */
  function StoredToken(items: map<string, string>, key: string): (t: string)
    ensures key !in items ==> t == ""
    ensures key in items ==> t == items[key]
  {
    if key in items then items[key] else ""
  }

  /** The storage after a successful `setToken(token)`. */
  function AfterSetToken(items: map<string, string>, key: string, token: string): (r: map<string, string>)
    ensures token == "" ==> key !in r
    ensures token != "" ==> key in r && r[key] == token
    ensures forall k :: k != key ==> (k in r <==> k in items)
    ensures forall k :: k != key && k in r ==> r[k] == items[k]
  {
    if token == "" then items - {key} else items[key := token]
  }

  /** A non-empty token that was set is what getToken returns next. */
  lemma SetThenGet(items: map<string, string>, key: string, token: string)
    ensures StoredToken(AfterSetToken(items, key, token), key) == token
  {
  }

  /** Setting twice is setting once: the last token wins. */
  lemma SetIsIdempotent(items: map<string, string>, key: string, token: string)
    ensures AfterSetToken(AfterSetToken(items, key, token), key, token) == AfterSetToken(items, key, token)
  {
  }

  class TokenStore {
    /** `config.storageKey`. */
    const storageKey: string
    /** The contents of the browser's storage. */
    var items: map<string, string>

    constructor (storageKey: string, items: map<string, string>)
      ensures this.storageKey == storageKey && this.items == items
    {
      this.storageKey := storageKey;
      this.items := items;
    }

    /** getToken: the stored token, or '' when it is absent or storage fails. */
    method GetToken(storageThrows: bool) returns (token: string)
      ensures storageThrows ==> token == ""
      ensures !storageThrows ==> token == StoredToken(items, storageKey)
    {
      if storageThrows {
        token := "";
      } else if storageKey in items {
        token := items[storageKey];
      } else {
        token := "";
      }
    }

    /** setToken: '' removes the entry, anything else stores it; failures change nothing. */
    method SetToken(token: string, storageThrows: bool)
      modifies this
      ensures storageThrows ==> items == old(items)
      ensures !storageThrows ==> items == AfterSetToken(old(items), storageKey, token)
    {
      if storageThrows {
        return;
      }
      if token == "" {
        items := items - {storageKey};
      } else {
        items := items[storageKey := token];
      }
    }

    /** clearToken: setToken(''). */
    method ClearToken(storageThrows: bool)
      modifies this
      ensures storageThrows ==> items == old(items)
      ensures !storageThrows ==> items == AfterSetToken(old(items), storageKey, "") && storageKey !in items
    {
      SetToken("", storageThrows);
    }
  }
}
