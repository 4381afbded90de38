/** Evaluation contexts and the facade's static context (src/unleash.ts). */
module Contexts {

  /** A field value of a context object: a string, an explicit `undefined`, or the nested
      `properties` object of custom fields. */
  datatype ContextValue = Undefined | Text(text: string) | Properties(fields: map<string, string>)

  /** A context object, by field name. */
  type Context = map<string, ContextValue>

  /** The fields every evaluation context starts from. */
  datatype StaticContext = StaticContext(appName: string, environment: string)

  /** The static context as a context object with exactly the fields `appName` and `environment`. */
  function StaticFields(sc: StaticContext): (c: Context)
    ensures c.Keys == {"appName", "environment"}
    ensures c["appName"] == Text(sc.appName) && c["environment"] == Text(sc.environment)
  {
    map["appName" := Text(sc.appName), "environment" := Text(sc.environment)]
  }

  /** `{ ...staticContext, ...context }`: every field of the caller's context is kept, even one
      set to `undefined`, and a static field survives only where the caller does not name it. */
  function EnhancedContext(sc: StaticContext, context: Context): (r: Context)
    ensures r.Keys == {"appName", "environment"} + context.Keys
    ensures forall k :: k in context ==> r[k] == context[k]
    ensures "appName" !in context ==> r["appName"] == Text(sc.appName)
    ensures "environment" !in context ==> r["environment"] == Text(sc.environment)
  {
    StaticFields(sc) + context
  }

  /** An omitted context (`context = {}`) evaluates against the static context alone. */
  lemma EnhancedContextOfEmpty(sc: StaticContext)
    ensures EnhancedContext(sc, map[]) == StaticFields(sc)
  {
    assert EnhancedContext(sc, map[]).Keys == StaticFields(sc).Keys;
  }

  /** Merging is stable: enhancing an already enhanced context changes nothing. */
  lemma EnhancedContextIdempotent(sc: StaticContext, context: Context)
    ensures EnhancedContext(sc, EnhancedContext(sc, context)) == EnhancedContext(sc, context)
  {
    var once := EnhancedContext(sc, context);
    assert EnhancedContext(sc, once).Keys == once.Keys;
  }
}
