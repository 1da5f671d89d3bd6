/** The slice of the HTTP client the interceptor talks to: a request whose
    headers are an ordered list of name/value pairs (a name may occur more than
    once), the builder step `header(name, value)` that replaces every value of a
    name by one new value, and the interceptor chain that forwards a request
    and hands back the response of the rest of the chain. */
module Http {

  datatype Header = Header(name: string, value: string)

  type Headers = seq<Header>

  /** An outbound request. Only the headers matter to the interceptor; the
      other parts are carried along so that "nothing else changes" can be said. */
  datatype Request = Request(url: string, verb: string, headers: Headers, body: string)
  {
    /** `newBuilder().header(name, value).build()`. */
    function WithHeader(name: string, value: string): (r: Request)
      ensures r.url == url && r.verb == verb && r.body == body
      ensures Values(r.headers, name) == [Trim(value)]
      ensures forall other :: other != name ==> Values(r.headers, other) == Values(headers, other)
    {
      this.(headers := Set(headers, name, value))
    }
  }

  /** Space and horizontal tab, the only whitespace a header value may hold. */
  predicate IsBlank(c: char) {
    c == ' ' || c == '\t'
  }

  /** Drops the blanks at the front. */
  function TrimStart(s: string): (r: string)
    ensures |r| <= |s| && r == s[|s| - |r|..]
    ensures forall k :: 0 <= k < |s| - |r| ==> IsBlank(s[k])
    ensures r != [] ==> !IsBlank(r[0])
  {
    if s != [] && IsBlank(s[0]) then TrimStart(s[1..]) else s
  }

  /** Drops the blanks at the back. */
  function TrimEnd(s: string): (r: string)
    ensures |r| <= |s| && r == s[..|r|]
    ensures forall k :: |r| <= k < |s| ==> IsBlank(s[k])
    ensures r != [] ==> !IsBlank(r[|r| - 1])
  {
    if s != [] && IsBlank(s[|s| - 1]) then TrimEnd(s[..|s| - 1]) else s
  }

  /** The trimming OkHttp applies to every header value it stores: the result
      is the piece of `s` left once the blanks at both ends are dropped. So a
      value without blanks at its ends is kept as it is, and a value made only
      of blanks becomes "". */
  function Trim(s: string): (r: string)
    ensures r == [] || (!IsBlank(r[0]) && !IsBlank(r[|r| - 1]))
    ensures exists i, j :: 0 <= i <= j <= |s| && r == s[i..j] &&
              (forall k :: 0 <= k < i ==> IsBlank(s[k])) &&
              (forall k :: j <= k < |s| ==> IsBlank(s[k]))
  {
    var front := TrimStart(s);
    var r := TrimEnd(front);
    var i := |s| - |front|;
    assert r == s[i..i + |r|];
    r
  }

  lemma TrimKeepsUnblankedEnds(s: string)
    requires s == [] || (!IsBlank(s[0]) && !IsBlank(s[|s| - 1]))
    ensures Trim(s) == s
  {
  }

  lemma TrimAllBlank(s: string)
    requires forall k :: 0 <= k < |s| ==> IsBlank(s[k])
    ensures Trim(s) == []
  {
  }

  /** Every value carried under `name`, in the order the pairs appear. This is
      the view of a header list as a map from a name to its values. */
  function Values(hs: Headers, name: string): seq<string>
  {
    if hs == [] then []
    else (if hs[0].name == name then [hs[0].value] else []) + Values(hs[1..], name)
  }

  lemma {:induction false} ValuesAppend(a: Headers, b: Headers, name: string)
    ensures Values(a + b, name) == Values(a, name) + Values(b, name)
  {
    if a != [] {
      assert (a + b)[1..] == a[1..] + b;
      ValuesAppend(a[1..], b, name);
    } else {
      assert a + b == b;
    }
  }

  /** Drops every pair named `name` and keeps the others in their order. */
  function RemoveAll(hs: Headers, name: string): (r: Headers)
    ensures forall h :: h in r <==> h in hs && h.name != name
    ensures Values(r, name) == []
    ensures forall other :: other != name ==> Values(r, other) == Values(hs, other)
  {
    if hs == [] then []
    else if hs[0].name == name then RemoveAll(hs[1..], name)
    else [hs[0]] + RemoveAll(hs[1..], name)
  }

  /** Drops every pair named `name` and appends one pair that stores `stored`
      as it is: afterwards `name` carries exactly `stored`, in the last pair,
      and every other name keeps its values. */
  function Put(hs: Headers, name: string, stored: string): (r: Headers)
    ensures |r| > 0 && r[|r| - 1] == Header(name, stored)
    ensures Values(r, name) == [stored]
    ensures forall other :: other != name ==> Values(r, other) == Values(hs, other)
  {
    var kept := RemoveAll(hs, name);
    ValuesAppend(kept, [Header(name, stored)], name);
    assert [Header(name, stored)][1..] == [];
    forall other | other != name
      ensures Values(kept + [Header(name, stored)], other) == Values(hs, other)
    {
      ValuesAppend(kept, [Header(name, stored)], other);
    }
    kept + [Header(name, stored)]
  }

  /** Header replacement, `Headers.Builder.set(name, value)`: afterwards `name`
      carries exactly the trimmed `value`, in the last pair, and every other
      name keeps its values. */
  function Set(hs: Headers, name: string, value: string): (r: Headers)
    ensures |r| > 0 && r[|r| - 1] == Header(name, Trim(value))
    ensures Values(r, name) == [Trim(value)]
    ensures forall other :: other != name ==> Values(r, other) == Values(hs, other)
  {
    Put(hs, name, Trim(value))
  }

  lemma {:induction false} RemoveAllAppend(a: Headers, b: Headers, name: string)
    ensures RemoveAll(a + b, name) == RemoveAll(a, name) + RemoveAll(b, name)
  {
    if a == [] {
      assert a + b == b;
    } else {
      assert (a + b)[1..] == a[1..] + b;
      RemoveAllAppend(a[1..], b, name);
    }
  }

  lemma {:induction false} RemoveAllIdempotent(hs: Headers, name: string)
    ensures RemoveAll(RemoveAll(hs, name), name) == RemoveAll(hs, name)
  {
    if hs != [] {
      RemoveAllIdempotent(hs[1..], name);
      if hs[0].name != name {
        assert ([hs[0]] + RemoveAll(hs[1..], name))[1..] == RemoveAll(hs[1..], name);
      }
    }
  }

  lemma {:induction false} RemoveAllCommute(hs: Headers, m: string, n: string)
    ensures RemoveAll(RemoveAll(hs, m), n) == RemoveAll(RemoveAll(hs, n), m)
  {
    if hs != [] {
      RemoveAllCommute(hs[1..], m, n);
      var tail := RemoveAll(hs[1..], m);
      var tail' := RemoveAll(hs[1..], n);
      if hs[0].name != m {
        assert ([hs[0]] + tail)[1..] == tail;
      }
      if hs[0].name != n {
        assert ([hs[0]] + tail')[1..] == tail';
      }
    }
  }

  /** Setting a name twice to the same value is setting it once. */
  lemma SetIdempotent(hs: Headers, name: string, value: string)
    ensures Set(Set(hs, name, value), name, value) == Set(hs, name, value)
  {
    PutIdempotent(hs, name, Trim(value));
  }

  lemma PutIdempotent(hs: Headers, name: string, stored: string)
    ensures Put(Put(hs, name, stored), name, stored) == Put(hs, name, stored)
  {
    var h := Header(name, stored);
    RemoveAllAppend(RemoveAll(hs, name), [h], name);
    assert RemoveAll([h], name) == [];
    RemoveAllIdempotent(hs, name);
  }

  /** Storing two distinct names in turn leaves the other headers, in their
      order, followed by the two new pairs. */
  lemma PutTwice(hs: Headers, m: string, a: string, n: string, b: string)
    requires m != n
    ensures Put(Put(hs, m, a), n, b) == RemoveAll(RemoveAll(hs, m), n) + [Header(m, a), Header(n, b)]
  {
    RemoveAllAppend(RemoveAll(hs, m), [Header(m, a)], n);
    assert RemoveAll([Header(m, a)], n) == [Header(m, a)];
  }

  /** Removing both names again from such a list gives back the other headers. */
  lemma RemoveTwiceAfterPutTwice(hs: Headers, m: string, u: string, n: string, v: string)
    requires m != n
    ensures var rest := RemoveAll(RemoveAll(hs, m), n);
            RemoveAll(RemoveAll(rest + [Header(m, u), Header(n, v)], m), n) == rest
  {
    var rest := RemoveAll(RemoveAll(hs, m), n);
    var tail := [Header(m, u), Header(n, v)];
    RemoveAllAppend(rest, tail, m);
    assert RemoveAll(tail, m) == [Header(n, v)] by {
      assert tail[1..] == [Header(n, v)];
      assert RemoveAll([Header(n, v)], m) == [Header(n, v)];
    }
    RemoveAllCommute(RemoveAll(hs, m), m, n);
    RemoveAllIdempotent(hs, m);
    assert RemoveAll(rest, m) == rest;
    RemoveAllAppend(rest, [Header(n, v)], n);
    assert RemoveAll([Header(n, v)], n) == [];
    RemoveAllIdempotent(RemoveAll(hs, m), n);
  }

  /** Stands in for the interceptor chain: `request` is what `chain.request()`
      returns, `proceeded` records every request handed to `Proceed`, and
      `server` is what the rest of the chain (the network) answers. */
  class Chain<Response> {
    const request: Request
    const server: Request -> Response
    var proceeded: seq<Request>

    constructor (request: Request, server: Request -> Response)
      ensures this.request == request && this.server == server
      ensures proceeded == []
    {
      this.request := request;
      this.server := server;
      proceeded := [];
    }

    /** `chain.proceed(r)`: forwards `r` and returns the answer to it. */
    method Proceed(r: Request) returns (response: Response)
      modifies this
      ensures proceeded == old(proceeded) + [r]
      ensures response == server(r)
    {
      proceeded := proceeded + [r];
      response := server(r);
    }
  }
}
