/**
 * The in-memory store of store/memstore/memstore.go: one map from token to
 * payload, shared by the text and the binary operations. Expiry times are
 * accepted and ignored, and no operation reports an error.
 */
module MemoryStore {
  import opened Wrappers
  import opened GoTypes
  import opened Uuid

  /** What `Save` (a string) or `SaveBytes` (a byte slice) put under a token. */
  datatype Payload = Text(text: string) | Binary(bytes: ByteSlice)

  /** An error a store backend may report; the in-memory store never does. */
  datatype StoreError = StoreError(message: string)

  /** The `(data string, found bool, err error)` triple of `Get`. */
  datatype TextLookup = TextLookup(data: string, found: bool, err: Option<StoreError>)

  /** The `(data []byte, found bool, err error)` triple of `GetBytes`. */
  datatype BytesLookup = BytesLookup(data: ByteSlice, found: bool, err: Option<StoreError>)

  /**
   * What `Get` reports for a store holding `m`. The requires stands for the
   * type assertion `val.(string)`, which panics on an entry `SaveBytes` wrote.
   */
  function LookupText(m: map<Token, Payload>, token: Token): (r: TextLookup)
    requires token in m ==> m[token].Text?
    ensures r.err == None
    ensures r.found <==> token in m
    ensures r.found ==> r.data == m[token].text
    ensures !r.found ==> r.data == ""
  {
    if token in m then TextLookup(m[token].text, true, None) else TextLookup("", false, None)
  }

  /**
   * What `GetBytes` reports for a store holding `m`; the requires stands for
   * the type assertion `val.([]byte)`, which panics on an entry `Save` wrote.
   */
  function LookupBytes(m: map<Token, Payload>, token: Token): (r: BytesLookup)
    requires token in m ==> m[token].Binary?
    ensures r.err == None
    ensures r.found <==> token in m
    ensures r.found ==> r.data == m[token].bytes
    ensures !r.found ==> r.data == Nil
  {
    if token in m then BytesLookup(m[token].bytes, true, None) else BytesLookup(Nil, false, None)
  }

  class MemStore {
    var values: map<Token, Payload>

    constructor New()
      ensures values == map[]
    {
      values := map[];
    }

    method Get(token: Token) returns (data: string, found: bool, err: Option<StoreError>)
      requires token in values ==> values[token].Text?
      ensures TextLookup(data, found, err) == LookupText(values, token)
    {
      if token in values {
        data, found, err := values[token].text, true, None;
      } else {
        data, found, err := "", false, None;
      }
    }

    /** Stores the text under the token whatever the expiry, replacing any payload of either kind. */
    method Save(token: Token, data: string, expiry: int) returns (err: Option<StoreError>)
      modifies this
      ensures values == old(values)[token := Text(data)]
      ensures err == None
    {
      values := values[token := Text(data)];
      err := None;
    }

    method GetBytes(token: Token) returns (data: ByteSlice, found: bool, err: Option<StoreError>)
      requires token in values ==> values[token].Binary?
      ensures BytesLookup(data, found, err) == LookupBytes(values, token)
    {
      if token in values {
        data, found, err := values[token].bytes, true, None;
      } else {
        data, found, err := Nil, false, None;
      }
    }

    /** Stores the bytes under the token whatever the expiry, replacing any payload of either kind. */
    method SaveBytes(token: Token, data: ByteSlice, expiry: int) returns (err: Option<StoreError>)
      modifies this
      ensures values == old(values)[token := Binary(data)]
      ensures err == None
    {
      values := values[token := Binary(data)];
      err := None;
    }

    /** Removes the token's entry, if there is one. */
    method Delete(token: Token) returns (err: Option<StoreError>)
      modifies this
      ensures values == old(values) - {token}
      ensures err == None
    {
      values := values - {token};
      err := None;
    }

    /** Expiry is never enforced: nothing is removed and the count is zero. */
    method DeleteExpired(expiry: int) returns (count: Int64, err: Option<StoreError>)
      ensures count == 0 && err == None
    {
      count, err := 0, None;
    }
  }

  /** A saved text reads back; every other token reads as before. */
  lemma SaveThenGet(m: map<Token, Payload>, token: Token, data: string, other: Token)
    requires other != token && (other in m ==> m[other].Text?)
    ensures LookupText(m[token := Text(data)], token) == TextLookup(data, true, None)
    ensures LookupText(m[token := Text(data)], other) == LookupText(m, other)
  {
  }

  /** Saved bytes read back; every other token reads as before. */
  lemma SaveBytesThenGetBytes(m: map<Token, Payload>, token: Token, data: ByteSlice, other: Token)
    requires other != token && (other in m ==> m[other].Binary?)
    ensures LookupBytes(m[token := Binary(data)], token) == BytesLookup(data, true, None)
    ensures LookupBytes(m[token := Binary(data)], other) == LookupBytes(m, other)
  {
  }

  /** After `Delete` the token is absent for both kinds of read; deleting an absent token changes nothing. */
  lemma DeleteThenGet(m: map<Token, Payload>, token: Token)
    ensures LookupText(m - {token}, token) == TextLookup("", false, None)
    ensures LookupBytes(m - {token}, token) == BytesLookup(Nil, false, None)
    ensures token !in m ==> m - {token} == m
  {
  }
}
