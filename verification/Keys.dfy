/**
 The idempotency keys of step, audit and tool-call rows: parts joined by colons.

 A task id has a fixed length. A tool call's arguments enter its key as the first 16
 characters of a hash, its start as a timestamp that has colons of its own.
 */
module Keys {
  import opened Wrappers

  const UUID_LENGTH := 36
  const HASH_LENGTH := 16

  function Colon(left: string, right: string): string {
    left + [':'] + right
  }

  /** An empty operation counts as none. */
  function StepKey(taskId: string, stepName: string, operation: Option<string>): string {
    var base := Colon(taskId, stepName);
    if operation.Some? && operation.value != "" then Colon(base, operation.value) else base
  }

  function AuditKey(taskId: string, step: string, status: string): string {
    Colon(Colon(taskId, step), status)
  }

  function ToolCallKey(taskId: string, effectiveStep: string, engineSuffix: string, toolName: string,
                       started: string, argsHash: string): string {
    Colon(Colon(Colon(Colon(Colon(taskId, effectiveStep), engineSuffix), toolName), started), argsHash)
  }

  predicate NoColon(s: string) {
    ':' !in s
  }

  lemma ColonAssociates(a: string, b: string, c: string)
    ensures Colon(Colon(a, b), c) == Colon(a, Colon(b, c))
  {
    assert a + [':'] + b + [':'] + c == a + [':'] + (b + [':'] + c);
  }

  /** Two joined pairs with left parts of one length. */
  lemma SameLength(a: string, b: string, x: string, y: string)
    requires |a| == |b| && Colon(a, x) == Colon(b, y)
    ensures a == b && x == y
  {
    assert a == Colon(a, x)[..|a|] && b == Colon(b, y)[..|b|];
    assert x == Colon(a, x)[|a| + 1..] && y == Colon(b, y)[|b| + 1..];
  }

  /** Two joined pairs whose left parts have no colon. */
  lemma FirstColon(a: string, b: string, x: string, y: string)
    requires NoColon(a) && NoColon(b) && Colon(a, x) == Colon(b, y)
    ensures a == b && x == y
  {
    assert Colon(a, x)[|a|] == ':' == Colon(b, y)[|b|];
    SameLength(a, b, x, y);
  }

  lemma LastPart(a: string, b: string, x: string, y: string)
    requires |x| == |y| && Colon(a, x) == Colon(b, y)
    ensures a == b && x == y
  {
    assert |a| == |b|;
    SameLength(a, b, x, y);
  }

  function Operation(operation: Option<string>): Option<string> {
    if operation.Some? && operation.value != "" then operation else None
  }

  /** What a step key holds after the task id. */
  function StepPart(stepName: string, operation: Option<string>): string {
    if Operation(operation).Some? then Colon(stepName, operation.value) else stepName
  }

  lemma StepKeyParts(taskId: string, stepName: string, operation: Option<string>)
    ensures StepKey(taskId, stepName, operation) == Colon(taskId, StepPart(stepName, operation))
  {
    if Operation(operation).Some? {
      ColonAssociates(taskId, stepName, operation.value);
    }
  }

  lemma PartHasColon(stepName: string, operation: Option<string>)
    requires NoColon(stepName)
    ensures NoColon(StepPart(stepName, operation)) <==> Operation(operation).None?
  {
    if Operation(operation).Some? {
      assert StepPart(stepName, operation)[|stepName|] == ':';
    }
  }

  lemma StepPartsAreInjective(a: string, p: Option<string>, b: string, q: Option<string>)
    requires NoColon(a) && NoColon(b) && StepPart(a, p) == StepPart(b, q)
    ensures a == b && Operation(p) == Operation(q)
  {
    PartHasColon(a, p);
    PartHasColon(b, q);
    if Operation(p).Some? && Operation(q).Some? {
      FirstColon(a, b, p.value, q.value);
    }
  }

  /** Two steps share a key exactly when they are the same operation of the same step and
      task. Step names have no colons; operations may have them. */
  lemma StepKeysAreInjective(t: string, a: string, p: Option<string>, u: string, b: string, q: Option<string>)
    requires |t| == |u| == UUID_LENGTH && NoColon(a) && NoColon(b)
    ensures StepKey(t, a, p) == StepKey(u, b, q) <==> t == u && a == b && Operation(p) == Operation(q)
  {
    StepKeyParts(t, a, p);
    StepKeyParts(u, b, q);
    if StepKey(t, a, p) == StepKey(u, b, q) {
      SameLength(t, u, StepPart(a, p), StepPart(b, q));
      StepPartsAreInjective(a, p, b, q);
    }
  }

  /** Two events share an audit row exactly when task, step and status are the same. */
  lemma AuditKeysAreInjective(t: string, a: string, x: string, u: string, b: string, y: string)
    requires |t| == |u| == UUID_LENGTH && NoColon(a) && NoColon(b)
    ensures AuditKey(t, a, x) == AuditKey(u, b, y) <==> t == u && a == b && x == y
  {
    ColonAssociates(t, a, x);
    ColonAssociates(u, b, y);
    if AuditKey(t, a, x) == AuditKey(u, b, y) {
      SameLength(t, u, Colon(a, x), Colon(b, y));
      FirstColon(a, b, x, y);
    }
  }

  /** A colon in a step name makes different events share a key. */
  lemma ColonsMakeAuditKeysCollide(taskId: string, a: string, b: string, c: string)
    ensures AuditKey(taskId, Colon(a, b), c) == AuditKey(taskId, a, Colon(b, c))
    ensures (Colon(a, b), c) != (a, Colon(b, c))
  {
    ColonAssociates(taskId, a, b);
    ColonAssociates(Colon(taskId, a), b, c);
    assert |Colon(a, b)| > |a|;
  }

  lemma ToolCallKeyParts(t: string, step: string, suffix: string, tool: string, started: string, hash: string)
    ensures ToolCallKey(t, step, suffix, tool, started, hash)
         == Colon(Colon(t, Colon(step, Colon(suffix, Colon(tool, started)))), hash)
  {
    ColonAssociates(Colon(Colon(t, step), suffix), tool, started);
    ColonAssociates(Colon(t, step), suffix, Colon(tool, started));
    ColonAssociates(t, step, Colon(suffix, Colon(tool, started)));
  }

  /** Two calls share a key exactly when they are of one task, step, engine and tool, started
      at the same time, and their arguments' hashes agree. */
  lemma ToolCallKeysAreInjective(t: string, step: string, suffix: string, tool: string, started: string, hash: string,
                                 u: string, step': string, suffix': string, tool': string, started': string,
                                 hash': string)
    requires |t| == |u| == UUID_LENGTH && |hash| == |hash'| == HASH_LENGTH
    requires NoColon(step) && NoColon(step') && NoColon(suffix) && NoColon(suffix') && NoColon(tool) && NoColon(tool')
    ensures ToolCallKey(t, step, suffix, tool, started, hash) == ToolCallKey(u, step', suffix', tool', started', hash')
       <==> t == u && step == step' && suffix == suffix' && tool == tool' && started == started' && hash == hash'
  {
    ToolCallKeyParts(t, step, suffix, tool, started, hash);
    ToolCallKeyParts(u, step', suffix', tool', started', hash');
    if ToolCallKey(t, step, suffix, tool, started, hash) == ToolCallKey(u, step', suffix', tool', started', hash') {
      var rest, rest' := Colon(suffix, Colon(tool, started)), Colon(suffix', Colon(tool', started'));
      LastPart(Colon(t, Colon(step, rest)), Colon(u, Colon(step', rest')), hash, hash');
      SameLength(t, u, Colon(step, rest), Colon(step', rest'));
      FirstColon(step, step', rest, rest');
      FirstColon(suffix, suffix', Colon(tool, started), Colon(tool', started'));
      FirstColon(tool, tool', started, started');
    }
  }
}
