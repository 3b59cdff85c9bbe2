/**
 The fingerprint of one exact tool operation that an approval gate stores, and the fingerprint
 that recognises a retry of the same client request.
 */
module ApprovalBinding {
  import opened Wrappers
  import opened Utf8
  import opened Framing
  import opened AgentRuns
  import opened Routing
  import Text

  /** The bytes of mcp-tool-approval-v1: */
  const BINDING_PREFIX: Bytes := [109, 99, 112, 45, 116, 111, 111, 108, 45, 97, 112, 112, 114, 111, 118, 97, 108, 45,
                                  118, 49, 58]

  const MIN_KEY_BYTES := 32
  const MAX_IDENTIFIER := 128

  /** One run, scoped route and normalized argument object. */
  datatype Call = Call(runId: string, request: Request, arguments: Bytes)

  predicate IdentifierChar(c: char, allowSlash: bool) {
    'a' <= c <= 'z' || 'A' <= c <= 'Z' || '0' <= c <= '9' || c == '.' || c == '_' || c == '-'
        || (allowSlash && c == '/')
  }

  /** All characters allowed are ASCII, so the byte limit is a limit on characters. */
  predicate IdentifierValid(s: string, allowSlash: bool) {
    Text.Required(s) && |s| <= MAX_IDENTIFIER && forall c :: c in s ==> IdentifierChar(c, allowSlash)
  }

  /** The transport request can be built. */
  predicate ToolCallValid(c: Call) {
    IdentifierValid(c.request.serverId, false) && IdentifierValid(c.request.toolName, true) && c.arguments != []
  }

  function OperationFields(c: Call): seq<Bytes> {
    [Encode(c.runId), Encode(c.request.project), Encode(c.request.providerId), Encode(c.request.connectionId),
     Encode(c.request.serverId), Encode(c.request.toolName), Encode(ModeText(c.request.mode)),
     Encode(RiskText(c.request.risk)), c.arguments]
  }

  function RetryFields(q: Request, arguments: Bytes): seq<Bytes> {
    [Encode(q.project), Encode(q.providerId), Encode(q.connectionId), Encode(q.serverId), Encode(q.toolName),
     Encode(ModeText(q.mode)), arguments]
  }

  /** Every value fits the machine: no field is 2^64 bytes long. */
  predicate Representable(c: Call) {
    Fits(OperationFields(c)) && Fits(RetryFields(c.request, c.arguments))
  }

  predicate Bindable(key: Bytes, c: Call) {
    |key| >= MIN_KEY_BYTES && RunIdValid(c.runId) && RequestValid(c.request) && ToolCallValid(c)
  }

  function BindingFor(key: Bytes, c: Call): Fingerprint {
    Hmac(key, BINDING_PREFIX + Frame(OperationFields(c)))
  }

  method NewToolApprovalBinding(key: Bytes, c: Call) returns (r: Option<Fingerprint>)
    ensures r == if Bindable(key, c) then Some(BindingFor(key, c)) else None
  {
    if |key| < MIN_KEY_BYTES { return None; }
    if !RunIdValid(c.runId) { return None; }
    if !RequestValid(c.request) { return None; }
    if !ToolCallValid(c) { return None; }
    var message := WriteFields(BINDING_PREFIX, OperationFields(c));
    return Some(Hmac(key, message));
  }

  /** Whether a stored binding was made for exactly this operation; anything malformed does not match. */
  predicate BindingMatches(b: Fingerprint, key: Bytes, c: Call) {
    Bindable(key, c) && b == BindingFor(key, c)
  }

  /** The check made at every approved gate: compute the binding again and compare. */
  method Matches(b: Fingerprint, key: Bytes, c: Call) returns (r: bool)
    ensures r == BindingMatches(b, key, c)
  {
    var expected := NewToolApprovalBinding(key, c);
    if expected.None? { return false; }
    return b == expected.value;
  }

  lemma SameSuffix(prefix: Bytes, a: Bytes, b: Bytes)
    requires prefix + a == prefix + b
    ensures a == b
  {
    assert a == (prefix + a)[|prefix|..] && b == (prefix + b)[|prefix|..];
  }

  lemma SameText(x: seq<Bytes>, y: seq<Bytes>, i: nat, s: string, t: string)
    requires x == y && i < |x| == |y| && x[i] == Encode(s) && y[i] == Encode(t)
    ensures s == t
  {
    EncodeInjective(s, t);
  }

  lemma OperationFieldsInjective(c1: Call, c2: Call)
    requires ValidMode(c1.request.mode) && ValidRisk(c1.request.risk)
    requires ValidMode(c2.request.mode) && ValidRisk(c2.request.risk)
    requires OperationFields(c1) == OperationFields(c2)
    ensures c1 == c2
  {
    SameNames(c1, c2);
    SameClasses(c1, c2);
  }

  lemma SameNames(c1: Call, c2: Call)
    requires OperationFields(c1) == OperationFields(c2)
    ensures c1.runId == c2.runId && c1.arguments == c2.arguments
    ensures c1.request == c2.request.(mode := c1.request.mode, risk := c1.request.risk)
  {
    var x, y := OperationFields(c1), OperationFields(c2);
    SameText(x, y, 0, c1.runId, c2.runId);
    SameText(x, y, 1, c1.request.project, c2.request.project);
    SameText(x, y, 2, c1.request.providerId, c2.request.providerId);
    SameText(x, y, 3, c1.request.connectionId, c2.request.connectionId);
    SameText(x, y, 4, c1.request.serverId, c2.request.serverId);
    SameText(x, y, 5, c1.request.toolName, c2.request.toolName);
    assert x[8] == c1.arguments && y[8] == c2.arguments;
  }

  lemma SameClasses(c1: Call, c2: Call)
    requires ValidMode(c1.request.mode) && ValidRisk(c1.request.risk)
    requires ValidMode(c2.request.mode) && ValidRisk(c2.request.risk)
    requires OperationFields(c1) == OperationFields(c2)
    ensures c1.request.mode == c2.request.mode && c1.request.risk == c2.request.risk
  {
    var x, y := OperationFields(c1), OperationFields(c2);
    SameText(x, y, 6, ModeText(c1.request.mode), ModeText(c2.request.mode));
    SameText(x, y, 7, RiskText(c1.request.risk), RiskText(c2.request.risk));
    ModeTextInjective(c1.request.mode, c2.request.mode);
    RiskTextInjective(c1.request.risk, c2.request.risk);
  }

  /** One binding stands for one operation: all nine fields and the key agree. */
  lemma BindingInjective(k1: Bytes, c1: Call, k2: Bytes, c2: Call)
    requires RequestValid(c1.request) && RequestValid(c2.request) && Representable(c1) && Representable(c2)
    requires BindingFor(k1, c1) == BindingFor(k2, c2)
    ensures k1 == k2 && c1 == c2
  {
    SameSuffix(BINDING_PREFIX, Frame(OperationFields(c1)), Frame(OperationFields(c2)));
    FrameInjective(OperationFields(c1), OperationFields(c2));
    OperationFieldsInjective(c1, c2);
  }

  function RetryFingerprint(q: Request, arguments: Bytes): Fingerprint {
    Sha(Frame(RetryFields(q, arguments)))
  }

  /** Equal retry fingerprints mean the same client intent: everything but the server-resolved risk. */
  lemma RetryFingerprintInjective(c1: Call, c2: Call)
    requires RequestValid(c1.request) && RequestValid(c2.request) && Representable(c1) && Representable(c2)
    ensures RetryFingerprint(c1.request, c1.arguments) == RetryFingerprint(c2.request, c2.arguments)
       <==> c1.request == c2.request.(risk := c1.request.risk) && c1.arguments == c2.arguments
  {
    var x, y := RetryFields(c1.request, c1.arguments), RetryFields(c2.request, c2.arguments);
    if RetryFingerprint(c1.request, c1.arguments) == RetryFingerprint(c2.request, c2.arguments) {
      FrameInjective(x, y);
      SameText(x, y, 0, c1.request.project, c2.request.project);
      SameText(x, y, 1, c1.request.providerId, c2.request.providerId);
      SameText(x, y, 2, c1.request.connectionId, c2.request.connectionId);
      SameText(x, y, 3, c1.request.serverId, c2.request.serverId);
      SameText(x, y, 4, c1.request.toolName, c2.request.toolName);
      SameText(x, y, 5, ModeText(c1.request.mode), ModeText(c2.request.mode));
      assert x[6] == c1.arguments && y[6] == c2.arguments;
      ModeTextInjective(c1.request.mode, c2.request.mode);
    }
  }
}
