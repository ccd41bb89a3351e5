/** `SelfSignedNotConfigured`: the condition under which the provided
    certificate builder may be activated. It refuses when either the
    deprecated or the current "build self-signed" key is set, recording a
    reason in the condition context; the deprecated key is reported first. */
module Activation {
  import opened SslConfig

  /** The failures a condition has recorded with `context.fail`. */
  datatype ConditionContext = ConditionContext(failures: seq<string>)

  /** A condition's answer together with the context it leaves behind. */
  datatype Verdict = Verdict(context: ConditionContext, matches: bool)

  const DeprecatedSelfSignedKey: string := SslPrefix + ".build-self-signed"
  const SelfSignedKey: string := ServerSslPrefix + ".build-self-signed"

  const DeprecatedReason: string :=
    "Deprecated  " + DeprecatedSelfSignedKey + " config detected, disabling provided certificate."
  const SelfSignedReason: string :=
    SelfSignedKey + " config detected, disabling provided certificate."

  /** `key` occurs in `s` starting at position `i`. */
  predicate OccursAt(s: string, key: string, i: int) {
    0 <= i <= |s| - |key| && s[i..i + |key|] == key
  }

  /** `key` occurs somewhere in `s`. */
  predicate Mentions(s: string, key: string) {
    exists i :: 0 <= i <= |s| && OccursAt(s, key, i)
  }

  /** The condition passes exactly when neither key is set, and then records
      nothing. Otherwise it appends one reason naming the key it found,
      checking the deprecated key first. */
  function Validate(ctx: ConditionContext, deprecatedFound: bool, newFound: bool): (v: Verdict)
    ensures v.matches <==> !deprecatedFound && !newFound
    ensures v.matches ==> v.context == ctx
    ensures !v.matches ==> |v.context.failures| == |ctx.failures| + 1
    ensures !v.matches ==> v.context.failures[..|ctx.failures|] == ctx.failures
    ensures deprecatedFound ==> Mentions(v.context.failures[|ctx.failures|], DeprecatedSelfSignedKey)
    ensures !deprecatedFound && newFound ==> Mentions(v.context.failures[|ctx.failures|], SelfSignedKey)
  {
    if deprecatedFound then
      assert OccursAt(DeprecatedReason, DeprecatedSelfSignedKey, 12);
      Verdict(ConditionContext(ctx.failures + [DeprecatedReason]), false)
    else if newFound then
      assert OccursAt(SelfSignedReason, SelfSignedKey, 0);
      Verdict(ConditionContext(ctx.failures + [SelfSignedReason]), false)
    else
      Verdict(ctx, true)
  }

  /** The deprecated key takes precedence: once it is set, the current key
      makes no difference, and the recorded reason is the deprecated one,
      which differs from the reason given for the current key alone. */
  lemma DeprecatedKeyTakesPrecedence(ctx: ConditionContext)
    ensures Validate(ctx, true, true) == Validate(ctx, true, false)
    ensures Validate(ctx, true, true).context != Validate(ctx, false, true).context
  {
    var n := |ctx.failures|;
    assert Validate(ctx, true, true).context.failures[n] == DeprecatedReason;
    assert Validate(ctx, false, true).context.failures[n] == SelfSignedReason;
    assert DeprecatedReason[0] != SelfSignedReason[0];
  }
}
