/** Requests of the CURL class: building a configuration from script arguments, the chain of form
    fields, who frees the configuration, and feeding the body to the transfer library
    (js_curl.c, js_curl_misc.c, curl_hlp.c, js_jsonrpc_curl.c). */
module Requests {
  import opened Sums
  import opened CStrings
  import opened Resources

  // ---- what a request should contain -----------------------------------------------------

  datatype FieldKind = Simple | File

  datatype FieldSpec = FieldSpec(kind: FieldKind, name: string, value: string)

  /** A script argument: a string, an ArrayBuffer, or any other object with the properties `type`,
      `name` and `value` (the first two present only if they are strings), or something else. */
  datatype JsArg =
    | Text(text: string)
    | Buffer(bytes: string)
    | FieldObject(kind: Option<string>, name: Option<string>, value: string)
    | Other

  predicate IsBody(a: JsArg) { a.Text? || (a.Buffer? && a.bytes != []) }

  predicate IsField(a: JsArg) { a.FieldObject? && a.kind.Some? && a.name.Some? }

  /** There is memory for every field. */
  predicate Fits(args: seq<JsArg>, noMemory: nat -> bool) {
    forall i :: 0 <= i < |args| && IsField(args[i]) ==> !noMemory(i)
  }

  function BodyBytes(a: JsArg): string
    requires IsBody(a)
  {
    if a.Text? then CText(a.text) else a.bytes
  }

  function FieldOf(a: JsArg): FieldSpec
    requires IsField(a)
  {
    FieldSpec(if EqualsIgnoreCase(a.kind.value, "file") then File else Simple, CText(a.name.value), CText(a.value))
  }

  /** The body an argument offers, if any. */
  function BodyIn(a: JsArg): Option<string> {
    if IsBody(a) then Some(BodyBytes(a)) else None
  }

  /** The first string or non-empty buffer. */
  function BodyOf(args: seq<JsArg>): Option<string> {
    if args == [] then None
    else if IsBody(args[0]) then BodyIn(args[0])
    else BodyOf(args[1..])
  }

  /** The form field an argument asks for, if any. */
  function FieldIn(a: JsArg): seq<FieldSpec> {
    if IsField(a) then [FieldOf(a)] else []
  }

  function FieldsOf(args: seq<JsArg>): seq<FieldSpec> {
    if args == [] then [] else FieldIn(args[0]) + FieldsOf(args[1..])
  }

  lemma {:induction false} BodyOfAppend(args: seq<JsArg>, a: JsArg)
    ensures BodyOf(args + [a]) == if BodyOf(args).Some? then BodyOf(args) else BodyIn(a)
  {
    if args == [] {
      assert [] + [a] == [a];
      assert BodyOf([a][1..]) == None;
    } else {
      assert (args + [a])[1..] == args[1..] + [a];
      BodyOfAppend(args[1..], a);
    }
  }

  lemma {:induction false} FieldsOfAppend(args: seq<JsArg>, a: JsArg)
    ensures FieldsOf(args + [a]) == FieldsOf(args) + FieldIn(a)
  {
    if args == [] {
      assert [] + [a] == [a];
      assert FieldsOf([a]) == FieldIn(a) + FieldsOf([a][1..]);
    } else {
      assert (args + [a])[1..] == args[1..] + [a];
      FieldsOfAppend(args[1..], a);
      Associate(FieldIn(args[0]), FieldsOf(args[1..]), FieldIn(a));
    }
  }

  lemma Associate<T>(a: seq<T>, b: seq<T>, c: seq<T>)
    ensures a + (b + c) == a + b + c
  {
  }

  lemma TakeArgs(args: seq<JsArg>, i: nat)
    requires i < |args|
    ensures BodyOf(args[..i + 1]) == if BodyOf(args[..i]).Some? then BodyOf(args[..i]) else BodyIn(args[i])
    ensures FieldsOf(args[..i + 1]) == FieldsOf(args[..i]) + FieldIn(args[i])
  {
    assert args[..i + 1] == args[..i] + [args[i]];
    BodyOfAppend(args[..i], args[i]);
    FieldsOfAppend(args[..i], args[i]);
  }

  /** BodyOf is the body of the earliest body-like argument, whatever follows it. */
  lemma {:induction false} BodyIsFirst(args: seq<JsArg>, i: nat)
    requires i < |args| && IsBody(args[i]) && forall j :: 0 <= j < i ==> !IsBody(args[j])
    ensures BodyOf(args) == Some(BodyBytes(args[i]))
  {
    if i > 0 {
      BodyIsFirst(args[1..], i - 1);
    }
  }

  // ---- settings --------------------------------------------------------------------------

  /** The settings of a CURL object that a request takes over. */
  datatype Settings = Settings(
    url: Option<string>, contentType: Option<string>, userAgent: Option<string>, credentials: Option<string>,
    proxy: Option<string>, proxyCredentials: Option<string>, cacert: Option<string>, proxyCacert: Option<string>,
    requestTimeout: nat, connectTimeout: nat, httpMethod: nat, authType: int, verifyHost: bool, verifyPeer: bool)

  const DEFAULT_CONTENT_TYPE := "text/plain"

  /** safe_pool_strdup: an empty text is copied as no text. */
  function NonEmpty(t: Option<string>): Option<string> {
    if t == Some("") then None else t
  }

  /** The settings a request should have: texts that say something, the content type as a header
      with a default, and everything else as the object has it. */
  function Configured(js: Settings): Settings {
    js.(contentType := Some("Content-Type: " + (if js.contentType.Some? then js.contentType.value
                                                else DEFAULT_CONTENT_TYPE)),
        url := NonEmpty(js.url), userAgent := NonEmpty(js.userAgent), credentials := NonEmpty(js.credentials),
        proxy := NonEmpty(js.proxy), proxyCredentials := NonEmpty(js.proxyCredentials),
        cacert := NonEmpty(js.cacert), proxyCacert := NonEmpty(js.proxyCacert))
  }

  // ---- the chain of form fields ----------------------------------------------------------

  class Field {
    var spec: FieldSpec
    var next: Field?

    constructor (spec: FieldSpec)
      ensures this.spec == spec && next == null
    {
      this.spec := spec;
      next := null;
    }
  }

  ghost function SpecsOf(chain: seq<Field>, items: set<Field>): (r: seq<FieldSpec>)
    requires forall i :: 0 <= i < |chain| ==> chain[i] in items
    reads items
    ensures |r| == |chain| && forall i :: 0 <= i < |chain| ==> r[i] == chain[i].spec
  {
    seq(|chain|, i requires 0 <= i < |chain| && chain[i] in items reads items => chain[i].spec)
  }

  /** curl_conf_t; `chain` is the list of fields as a sequence. */
  class CurlConf {
    var pool: nat
    var extPool: bool
    var recvBuffer: Option<nat>
    var sendBuffer: Option<string>
    var sent: nat
    var url: Option<string>
    var contentType: Option<string>
    var userAgent: Option<string>
    var credentials: Option<string>
    var proxy: Option<string>
    var proxyCredentials: Option<string>
    var cacert: Option<string>
    var proxyCacert: Option<string>
    var requestTimeout: nat
    var connectTimeout: nat
    var httpMethod: nat
    var authType: int
    var verifyHost: bool
    var verifyPeer: bool
    var fields: Field?
    var fieldsTail: Field?
    ghost var chain: seq<Field>
    ghost var items: set<Field>

    /** The fields hang together in chain order, without a cycle, the tail being the last. */
    ghost predicate Linked()
      reads this`fields, this`fieldsTail, this`chain, this`items, items
    {
      && (forall i :: 0 <= i < |chain| ==> chain[i] in items)
      && (forall i, j :: 0 <= i < j < |chain| ==> chain[i] != chain[j])
      && (if chain == [] then fields == null else fields == chain[0] && fieldsTail == chain[|chain| - 1])
      && (forall i :: 0 <= i < |chain| ==> chain[i].next == if i + 1 < |chain| then chain[i + 1] else null)
    }

    ghost function Specs(): seq<FieldSpec>
      requires Linked()
      reads this`fields, this`fieldsTail, this`chain, this`items, items
    {
      SpecsOf(chain, items)
    }

    ghost function Configuration(): Settings
      reads this
    {
      Settings(url, contentType, userAgent, credentials, proxy, proxyCredentials, cacert, proxyCacert,
               requestTimeout, connectTimeout, httpMethod, authType, verifyHost, verifyPeer)
    }

    constructor (pool: nat, extPool: bool, recvBuffer: Option<nat>)
      ensures Linked() && chain == [] && items == {} && this.pool == pool && this.extPool == extPool
      ensures this.recvBuffer == recvBuffer && sendBuffer == None && sent == 0
    {
      this.pool, this.extPool, this.recvBuffer := pool, extPool, recvBuffer;
      sendBuffer, sent, fields, fieldsTail, chain, items := None, 0, null, null, [], {};
    }

    /** curl_field_add: false if there is no memory for the field. */
    method FieldAdd(spec: FieldSpec, fails: bool) returns (ok: bool)
      requires Linked()
      modifies this`fields, this`fieldsTail, this`chain, this`items, items
      ensures Linked() && ok == !fails && fresh(items - old(items))
      ensures fails ==> chain == old(chain) && Specs() == old(Specs())
      ensures !fails ==> |chain| == |old(chain)| + 1 && chain[..|old(chain)|] == old(chain) && fresh(chain[|old(chain)|])
      ensures !fails ==> Specs() == old(Specs()) + [spec]
    {
      if fails { return false; }
      var item := new Field(spec);
      if fields == null {
        fields, fieldsTail := item, item;
      } else {
        fieldsTail.next := item;
        fieldsTail := item;
      }
      chain, items := chain + [item], items + {item};
      ok := true;
    }

    /** The walk in curl_perform that turns the fields into form parts. */
    method WalkFields() returns (parts: seq<FieldSpec>)
      requires Linked()
      ensures parts == Specs()
    {
      parts := [];
      var field := fields;
      while field != null
        invariant |parts| <= |chain|
        invariant field == if |parts| < |chain| then chain[|parts|] else null
        invariant forall i :: 0 <= i < |parts| ==> parts[i] == Specs()[i]
        decreases |chain| - |parts|
      {
        parts := parts + [field.spec];
        field := field.next;
      }
    }

    /** The argument loop of perform; `noMemory(i)` says that the field of argument i cannot be
        allocated, which ends the loop with an error. */
    method TakeArguments(args: seq<JsArg>, noMemory: nat -> bool) returns (ok: bool)
      requires Linked() && chain == [] && items == {} && sendBuffer == None
      modifies this`fields, this`fieldsTail, this`chain, this`items, this`sendBuffer
      ensures Linked() && fresh(items)
      ensures ok <==> Fits(args, noMemory)
      ensures ok ==> sendBuffer == BodyOf(args) && Specs() == FieldsOf(args)
    {
      ok := true;
      var i := 0;
      while i < |args| && ok
        invariant 0 <= i <= |args|
        invariant Linked() && fresh(items)
        invariant ok <==> forall j :: 0 <= j < i && IsField(args[j]) ==> !noMemory(j)
        invariant ok ==> sendBuffer == BodyOf(args[..i]) && Specs() == FieldsOf(args[..i])
      {
        TakeArgs(args, i);
        ok := TakeArg(args[i], noMemory(i));
        i := i + 1;
      }
      assert args[..|args|] == args;
    }

    /** One turn of that loop. */
    method TakeArg(a: JsArg, fails: bool) returns (ok: bool)
      requires Linked()
      modifies this`fields, this`fieldsTail, this`chain, this`items, this`sendBuffer, items
      ensures Linked() && fresh(items - old(items))
      ensures ok <==> !(IsField(a) && fails)
      ensures ok ==> sendBuffer == if old(sendBuffer).Some? then old(sendBuffer) else BodyIn(a)
      ensures ok ==> Specs() == old(Specs()) + FieldIn(a)
    {
      ok := true;
      if a.Text? {
        if sendBuffer == None { sendBuffer := Some(CText(a.text)); }
      } else if a.Buffer? || a.FieldObject? {
        if a.Buffer? && |a.bytes| > 0 {
          if sendBuffer == None { sendBuffer := Some(a.bytes); }
        } else if a.FieldObject? && a.kind.Some? && a.name.Some? {
          var kind := if EqualsIgnoreCase(a.kind.value, "file") then File else Simple;
          ok := FieldAdd(FieldSpec(kind, CText(a.name.value), CText(a.value)), fails);
        }
      }
      if !IsField(a) { assert Specs() == old(Specs()); }
    }

    /** The argument loop of performBg, which the source has a second time. */
    method TakeBgArguments(args: seq<JsArg>, noMemory: nat -> bool) returns (ok: bool)
      requires Linked() && chain == [] && items == {} && sendBuffer == None
      modifies this`fields, this`fieldsTail, this`chain, this`items, this`sendBuffer
      ensures Linked() && fresh(items)
      ensures ok <==> Fits(args, noMemory)
      ensures ok ==> sendBuffer == BodyOf(args) && Specs() == FieldsOf(args)
    {
      ok := true;
      var i := 0;
      while i < |args| && ok
        invariant 0 <= i <= |args|
        invariant Linked() && fresh(items)
        invariant ok <==> forall j :: 0 <= j < i && IsField(args[j]) ==> !noMemory(j)
        invariant ok ==> sendBuffer == BodyOf(args[..i]) && Specs() == FieldsOf(args[..i])
      {
        TakeArgs(args, i);
        ok := TakeBgArg(args[i], noMemory(i));
        i := i + 1;
      }
      assert args[..|args|] == args;
    }

    /** One turn of that loop. */
    method TakeBgArg(a: JsArg, fails: bool) returns (ok: bool)
      requires Linked()
      modifies this`fields, this`fieldsTail, this`chain, this`items, this`sendBuffer, items
      ensures Linked() && fresh(items - old(items))
      ensures ok <==> !(IsField(a) && fails)
      ensures ok ==> sendBuffer == if old(sendBuffer).Some? then old(sendBuffer) else BodyIn(a)
      ensures ok ==> Specs() == old(Specs()) + FieldIn(a)
    {
      ok := true;
      match a
      case Text(text) =>
        if sendBuffer == None { sendBuffer := Some(CText(text)); }
        assert Specs() == old(Specs());
      case Buffer(bytes) =>
        if |bytes| > 0 && sendBuffer == None { sendBuffer := Some(bytes); }
        assert Specs() == old(Specs());
      case FieldObject(kind, name, value) =>
        if kind.Some? && name.Some? {
          var k := if EqualsIgnoreCase(kind.value, "file") then File else Simple;
          ok := FieldAdd(FieldSpec(k, CText(name.value), CText(value)), fails);
        } else {
          assert Specs() == old(Specs());
        }
      case Other =>
        assert Specs() == old(Specs());
    }

    /** The settings as perform copies them: the texts, and then the rest. */
    method CopySettings(js: Settings)
      modifies this
      ensures Configuration() == Configured(js)
      ensures unchanged(`fields, `fieldsTail, `chain, `items, `sendBuffer, `sent, `pool, `extPool, `recvBuffer)
    {
      CopyTexts(js);
      CopyNumbers(js);
    }

    method CopyTexts(js: Settings)
      modifies `contentType, `url, `userAgent, `credentials, `proxyCredentials, `proxy, `cacert, `proxyCacert
      ensures contentType == Configured(js).contentType
      ensures url == NonEmpty(js.url)
      ensures userAgent == NonEmpty(js.userAgent)
      ensures credentials == NonEmpty(js.credentials)
      ensures proxyCredentials == NonEmpty(js.proxyCredentials)
      ensures proxy == NonEmpty(js.proxy)
      ensures cacert == NonEmpty(js.cacert)
      ensures proxyCacert == NonEmpty(js.proxyCacert)
    {
      contentType := Some("Content-Type: " + if js.contentType.Some? then js.contentType.value else DEFAULT_CONTENT_TYPE);
      url := NonEmpty(js.url);
      userAgent := NonEmpty(js.userAgent);
      credentials := NonEmpty(js.credentials);
      proxyCredentials := NonEmpty(js.proxyCredentials);
      proxy := NonEmpty(js.proxy);
      cacert := NonEmpty(js.cacert);
      proxyCacert := NonEmpty(js.proxyCacert);
    }

    method CopyNumbers(js: Settings)
      modifies `requestTimeout, `connectTimeout, `httpMethod, `authType, `verifyHost, `verifyPeer
      ensures requestTimeout == js.requestTimeout
      ensures connectTimeout == js.connectTimeout
      ensures httpMethod == js.httpMethod
      ensures authType == js.authType
      ensures verifyHost == js.verifyHost
      ensures verifyPeer == js.verifyPeer
    {
      requestTimeout := js.requestTimeout;
      connectTimeout := js.connectTimeout;
      httpMethod := js.httpMethod;
      authType := js.authType;
      verifyHost := js.verifyHost;
      verifyPeer := js.verifyPeer;
    }

    /** The settings as performBg copies them: the texts, and then the rest. */
    method CopyBgSettings(js: Settings)
      modifies this
      ensures Configuration() == Configured(js)
      ensures unchanged(`fields, `fieldsTail, `chain, `items, `sendBuffer, `sent, `pool, `extPool, `recvBuffer)
    {
      CopyBgTexts(js);
      CopyBgNumbers(js);
    }

    method CopyBgTexts(js: Settings)
      modifies `contentType, `url, `userAgent, `credentials, `proxyCredentials, `proxy, `cacert, `proxyCacert
      ensures contentType == Configured(js).contentType
      ensures url == NonEmpty(js.url)
      ensures userAgent == NonEmpty(js.userAgent)
      ensures credentials == NonEmpty(js.credentials)
      ensures proxyCredentials == NonEmpty(js.proxyCredentials)
      ensures proxy == NonEmpty(js.proxy)
      ensures cacert == NonEmpty(js.cacert)
      ensures proxyCacert == NonEmpty(js.proxyCacert)
    {
      contentType := Some("Content-Type: " + if js.contentType.Some? then js.contentType.value else DEFAULT_CONTENT_TYPE);
      url := NonEmpty(js.url);
      userAgent := NonEmpty(js.userAgent);
      credentials := NonEmpty(js.credentials);
      proxyCredentials := NonEmpty(js.proxyCredentials);
      proxy := NonEmpty(js.proxy);
      cacert := NonEmpty(js.cacert);
      proxyCacert := NonEmpty(js.proxyCacert);
    }

    method CopyBgNumbers(js: Settings)
      modifies `requestTimeout, `connectTimeout, `httpMethod, `authType, `verifyHost, `verifyPeer
      ensures connectTimeout == js.connectTimeout
      ensures requestTimeout == js.requestTimeout
      ensures httpMethod == js.httpMethod
      ensures authType == js.authType
      ensures verifyHost == js.verifyHost
      ensures verifyPeer == js.verifyPeer
    {
      connectTimeout := js.connectTimeout;
      requestTimeout := js.requestTimeout;
      httpMethod := js.httpMethod;
      authType := js.authType;
      verifyHost := js.verifyHost;
      verifyPeer := js.verifyPeer;
    }

    // ---- sending the body ----------------------------------------------------------------

    ghost function Body(): string
      reads this
    {
      if sendBuffer.Some? then sendBuffer.value else []
    }

    /** curl_io_read_callback of curl_hlp.c: up to size * nitems bytes, from where the last call
        stopped. */
    method ReadCallback(size: nat, nitems: nat) returns (chunk: string)
      requires sent <= |Body()|
      modifies this`sent
      ensures old(sent) <= sent <= |Body()| && chunk == Body()[old(sent)..sent]
      ensures |chunk| <= size * nitems
      ensures chunk == [] <==> size * nitems == 0 || old(sent) == |Body()|
      ensures |chunk| < size * nitems ==> sent == |Body()|
    {
      var nmax := size * nitems;
      var body := if sendBuffer.Some? then sendBuffer.value else [];
      var ncur := if |body| - sent > nmax then nmax else |body| - sent;
      chunk := [];
      if ncur > 0 {
        chunk := body[sent..sent + ncur];
        sent := sent + ncur;
      }
    }

    /** Any sequence of calls, made until one that offers room returns nothing: the chunks one
        after the other are the body up to the room offered, and all of it once that happened. */
    method Upload(sizes: seq<nat>) returns (received: string, ended: bool)
      requires sent == 0
      modifies this`sent
      ensures received == Body()[..if SumOf(sizes) < |Body()| then SumOf(sizes) else |Body()|]
      ensures ended ==> received == Body()
    {
      received, ended := [], false;
      var i := 0;
      while i < |sizes| && !ended
        invariant 0 <= i <= |sizes| && sent <= |Body()| && received == Body()[..sent]
        invariant sent == if SumOf(sizes[..i]) < |Body()| then SumOf(sizes[..i]) else |Body()|
        invariant ended ==> sent == |Body()|
      {
        assert sizes[..i + 1] == sizes[..i] + [sizes[i]];
        SumOfAppend(sizes[..i], sizes[i]);
        var chunk := ReadCallback(1, sizes[i]);
        received := received + chunk;
        ended := chunk == [] && sizes[i] > 0;
        i := i + 1;
      }
      SumOfPrefix(sizes, i);
    }
  }

  /** send_buffer_t of js_jsonrpc_curl.c, whose callback has no guard around the copy. */
  class SendBuffer {
    var data: string

    constructor (data: string)
      ensures this.data == data
    {
      this.data := data;
    }

    method ReadCallback(size: nat, nitems: nat) returns (chunk: string)
      modifies this
      ensures old(data) == chunk + data
      ensures |chunk| <= size * nitems
      ensures |chunk| < size * nitems ==> data == []
    {
      var nmax := size * nitems;
      var ncur := if |data| > nmax then nmax else |data|;
      chunk := data[..ncur];
      data := data[ncur..];
    }
  }

  // ---- who frees a request ---------------------------------------------------------------

  /** Which of the host's allocations fail. */
  datatype Faults = Faults(pool: bool, record: bool, config: bool, buffer: bool, noMemory: nat -> bool)

  /** js_curl_creq_conf_t, allocated in `pool`. */
  class CreqConf {
    var pool: nat
    var jid: nat
    var conf: CurlConf

    constructor (pool: nat, conf: CurlConf)
      ensures this.pool == pool && this.conf == conf && jid == 0
    {
      this.pool, this.conf, jid := pool, conf, 0;
    }

    ghost predicate Owns(resources: set<nat>)
      reads this, conf
    {
      HeldIn(resources) && resources == {pool, conf.recvBuffer.value}
    }

    /** The pool and the buffer are two of these. */
    ghost predicate HeldIn(resources: set<nat>)
      reads this, conf
    {
      && conf.extPool && conf.recvBuffer.Some? && conf.recvBuffer.value != pool
      && pool in resources && conf.recvBuffer.value in resources
    }
  }

  /** curl_config_alloc; without a pool of the caller it makes one of its own. */
  method CurlConfigAlloc(mem: Ledger, pool: Option<nat>, withBuffer: bool, faults: Faults) returns (conf: CurlConf?)
    requires mem.Valid()
    modifies mem
    ensures mem.Valid() && mem.next >= old(mem.next)
    ensures conf == null ==> mem.live == old(mem.live)
    ensures conf != null ==>
      && fresh(conf) && conf.Linked() && conf.chain == [] && conf.items == {} && conf.sendBuffer == None && conf.sent == 0
      && conf.extPool == pool.Some? && (pool.Some? ==> conf.pool == pool.value)
      && conf.recvBuffer.Some? == withBuffer
      && (withBuffer ==> conf.recvBuffer.value >= old(mem.next))
      && (withBuffer && pool == None ==> conf.recvBuffer.value != conf.pool)
      && (pool == None ==> conf.pool >= old(mem.next))
      && mem.live == old(mem.live) + (if pool == None then {conf.pool} else {})
                     + (if withBuffer then {conf.recvBuffer.value} else {})
    ensures conf == null <==> (pool == None && faults.pool) || faults.config || (withBuffer && faults.buffer)
  {
    conf := null;
    var own := pool;
    if pool == None {
      own := mem.Acquire(faults.pool);
      if own == None { return; }
    }
    var buffer := None;
    if !faults.config && withBuffer {
      buffer := mem.Acquire(faults.buffer);
    }
    if faults.config || (withBuffer && buffer == None) {
      if pool == None { mem.Destroy(own.value); }
      return;
    }
    conf := new CurlConf(own.value, pool.Some?, buffer);
  }

  /** curl_config_free undoes it. */
  method CurlConfigFree(mem: Ledger, conf: CurlConf)
    requires mem.Valid()
    requires conf.recvBuffer.Some? ==> conf.recvBuffer.value in mem.live
    requires !conf.extPool ==> conf.pool in mem.live && conf.recvBuffer != Some(conf.pool)
    modifies mem
    ensures mem.Valid() && mem.next == old(mem.next)
    ensures mem.live == old(mem.live) - (if conf.recvBuffer.Some? then {conf.recvBuffer.value} else {})
                                      - (if conf.extPool then {} else {conf.pool})
  {
    if conf.recvBuffer.Some? { mem.Destroy(conf.recvBuffer.value); }
    if !conf.extPool { mem.Destroy(conf.pool); }
  }

  /** js_curl_creq_conf_alloc: a request owning one pool and one buffer, or nothing at all. */
  method CreqConfAlloc(mem: Ledger, faults: Faults) returns (req: CreqConf?)
    requires mem.Valid()
    modifies mem
    ensures mem.Valid()
    ensures req == null ==> mem.live == old(mem.live)
    ensures req != null ==>
      && fresh(req) && fresh(req.conf) && req.conf.Linked() && req.conf.chain == [] && req.conf.items == {}
      && req.conf.sendBuffer == None && req.conf.sent == 0
      && req.Owns(mem.live - old(mem.live)) && old(mem.live) <= mem.live
    ensures req == null <==> faults.pool || faults.record || faults.config || faults.buffer
  {
    req := null;
    var pool := mem.Acquire(faults.pool);
    if pool == None { return; }
    var conf: CurlConf? := null;
    if !faults.record {
      conf := CurlConfigAlloc(mem, pool, true, faults);
    }
    if conf == null {
      mem.Destroy(pool.value);
      return;
    }
    req := new CreqConf(pool.value, conf);
  }

  /** js_curl_creq_conf_free; freeing no request is allowed and does nothing. */
  method CreqConfFree(mem: Ledger, req: CreqConf?)
    requires mem.Valid()
    requires req != null ==> req.HeldIn(mem.live)
    modifies mem
    ensures mem.Valid()
    ensures req == null ==> mem.live == old(mem.live)
    ensures req != null ==> mem.live == old(mem.live) - {req.pool, req.conf.recvBuffer.value}
  {
    if req != null {
      CurlConfigFree(mem, req.conf);
      mem.Destroy(req.pool);
    }
  }

  /** A request that is fully set up for these arguments and settings. */
  ghost predicate Built(req: CreqConf, js: Settings, args: seq<JsArg>)
    reads req, req.conf, req.conf.items
  {
    && req.conf.Linked() && req.conf.sent == 0
    && req.conf.sendBuffer == BodyOf(args)
    && req.conf.Specs() == FieldsOf(args)
    && req.conf.Configuration() == Configured(js)
  }

  /** No URL, no memory for the request, or none for one of its fields. */
  predicate Refused(js: Settings, args: seq<JsArg>, faults: Faults) {
    || NonEmpty(js.url) == None
    || faults.pool || faults.record || faults.config || faults.buffer
    || !Fits(args, faults.noMemory)
  }

  /** Requests built for the same arguments and settings are the same request. */
  lemma BuiltAlike(a: CreqConf, b: CreqConf, js: Settings, args: seq<JsArg>)
    requires Built(a, js, args) && Built(b, js, args)
    ensures a.conf.sendBuffer == b.conf.sendBuffer && a.conf.Specs() == b.conf.Specs()
    ensures a.conf.Configuration() == b.conf.Configuration()
  {
  }

  datatype Outcome = Outcome(code: nat, body: string)

  /** The setup in js_curl_perform_request: allocate, take the arguments, copy the settings. A request
      that could not be completed is handed back with ok false, to be freed. */
  method SetUpForeground(mem: Ledger, js: Settings, args: seq<JsArg>, faults: Faults) returns (req: CreqConf?, ok: bool)
    requires mem.Valid()
    modifies mem
    ensures mem.Valid() && old(mem.live) <= mem.live
    ensures req == null ==> mem.live == old(mem.live) && !ok
    ensures req != null ==> fresh(req) && fresh(req.conf) && req.Owns(mem.live - old(mem.live))
    ensures ok ==> req != null && Built(req, js, args)
    ensures ok <==> !Refused(js, args, faults)
  {
    req, ok := null, false;
    if NonEmpty(js.url) == None { return; }
    req := CreqConfAlloc(mem, faults);
    if req == null { return; }
    ok := req.conf.TakeArguments(args, faults.noMemory);
    if ok { req.conf.CopySettings(js); }
  }

  /** The setup in js_curl_perform_bg_request. */
  method SetUpBackground(mem: Ledger, js: Settings, args: seq<JsArg>, faults: Faults) returns (req: CreqConf?, ok: bool)
    requires mem.Valid()
    modifies mem
    ensures mem.Valid() && old(mem.live) <= mem.live
    ensures req == null ==> mem.live == old(mem.live) && !ok
    ensures req != null ==> fresh(req) && fresh(req.conf) && req.Owns(mem.live - old(mem.live))
    ensures ok ==> req != null && Built(req, js, args)
    ensures ok <==> !Refused(js, args, faults)
  {
    req, ok := null, false;
    if NonEmpty(js.url) == None { return; }
    req := CreqConfAlloc(mem, faults);
    if req == null { return; }
    ok := req.conf.TakeBgArguments(args, faults.noMemory);
    if ok { req.conf.CopyBgSettings(js); }
  }

  /** js_curl_perform_request: whatever happens, everything acquired is destroyed again. The
      transfer itself is foreign and given as `outcome`. */
  method PerformRequest(mem: Ledger, js: Settings, args: seq<JsArg>, faults: Faults, outcome: Outcome)
    returns (result: Option<Outcome>)
    requires mem.Valid()
    modifies mem
    ensures mem.Valid() && mem.live == old(mem.live)
    ensures result == if Refused(js, args, faults) then None else Some(outcome)
  {
    result := None;
    var req, ok := SetUpForeground(mem, js, args, faults);
    if ok {
      var res := mem.Acquire(false);
      result := Some(outcome);
      mem.Destroy(res.value);
    }
    CreqConfFree(mem, req);
  }

  /** js_curl_perform_bg_request: either the request is refused and nothing stays acquired, or the
      job is launched with a complete request, which is then the worker's to free. `nextJid` is the
      id js_curl_job_next_id gives; a script is not told of a launched job whose id is 0. */
  method PerformBgRequest(mem: Ledger, js: Settings, args: seq<JsArg>, faults: Faults, nextJid: nat)
    returns (launched: CreqConf?, told: Option<nat>)
    requires mem.Valid()
    modifies mem
    ensures mem.Valid() && old(mem.live) <= mem.live
    ensures launched == null <==> Refused(js, args, faults)
    ensures launched == null ==> mem.live == old(mem.live)
    ensures launched != null ==> fresh(launched) && Built(launched, js, args) && launched.Owns(mem.live - old(mem.live))
    ensures launched != null ==> launched.jid == nextJid
    ensures told == if launched != null && nextJid != 0 then Some(nextJid) else None
  {
    var ok;
    told := None;
    launched, ok := SetUpBackground(mem, js, args, faults);
    if ok {
      launched.jid := nextJid;
      if nextJid > 0 { told := Some(nextJid); }
    } else {
      CreqConfFree(mem, launched);
      launched := null;
    }
  }

  /** The same call in the foreground and in the background comes to the same request. */
  method BothWays(mem: Ledger, js: Settings, args: seq<JsArg>, faults: Faults) returns (fg: CreqConf?, bg: CreqConf?)
    requires mem.Valid()
    modifies mem
    ensures fg == null <==> bg == null
    ensures fg != null && bg != null ==>
      && Built(fg, js, args) && Built(bg, js, args) && fg.conf.sendBuffer == bg.conf.sendBuffer
      && fg.conf.Specs() == bg.conf.Specs() && fg.conf.Configuration() == bg.conf.Configuration()
  {
    var fgOk, bgOk;
    fg, fgOk := SetUpForeground(mem, js, args, faults);
    bg, bgOk := SetUpBackground(mem, js, args, faults);
    if fgOk {
      BuiltAlike(fg, bg, js, args);
    } else {
      fg, bg := null, null;
    }
  }

  /** js_curl_request_exec_thread as far as memory goes: the request is freed, and the result is
      left to the queue that accepted it or freed too. */
  method ExecRequest(mem: Ledger, req: CreqConf, accepted: bool) returns (result: Option<nat>)
    requires mem.Valid() && req.HeldIn(mem.live)
    modifies mem
    ensures mem.Valid() && result.Some? == accepted
    ensures accepted ==> result.value !in old(mem.live)
    ensures mem.live == old(mem.live) - {req.pool, req.conf.recvBuffer.value} + (if accepted then {result.value} else {})
  {
    result := mem.Acquire(false);
    if !accepted {
      mem.Destroy(result.value);
      result := None;
    }
    CreqConfFree(mem, req);
  }

  /** A background request from call to completion leaves behind only an accepted result. */
  method BackgroundRoundTrip(js: Settings, args: seq<JsArg>, faults: Faults, nextJid: nat, accepted: bool)
    returns (mem: Ledger)
    ensures fresh(mem) && |mem.live| == if Refused(js, args, faults) || !accepted then 0 else 1
  {
    mem := new Ledger();
    var req, told := PerformBgRequest(mem, js, args, faults, nextJid);
    if req != null {
      var result := ExecRequest(mem, req, accepted);
    }
  }

  function SumOf(s: seq<nat>): nat { if s == [] then 0 else s[0] + SumOf(s[1..]) }

  lemma {:induction false} SumOfAppend(s: seq<nat>, v: nat)
    ensures SumOf(s + [v]) == SumOf(s) + v
  {
    if s == [] {
      assert [] + [v] == [v];
    } else {
      assert (s + [v])[1..] == s[1..] + [v];
      SumOfAppend(s[1..], v);
    }
  }

  lemma {:induction false} SumOfPrefix(s: seq<nat>, i: nat)
    requires i <= |s|
    ensures SumOf(s[..i]) <= SumOf(s)
    ensures i == |s| ==> s[..i] == s
    decreases |s|
  {
    if i > 0 {
      assert s[..i][1..] == s[1..][..i - 1];
      SumOfPrefix(s[1..], i - 1);
    }
  }
}
