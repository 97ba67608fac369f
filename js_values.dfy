/**
 * JavaScript values that the library passes along in option objects without
 * reading them: `rpcConfig`, `rpcSubscriptionsConfig` and the token helpers'
 * `config`.
 */
module JsValues {

  /** An option value, carried and compared but never interpreted. */
  datatype JsValue = JsString(text: string) | JsNumber(number: int) | JsBool(flag: bool) | JsObject(id: nat)

  /** An option object: property name to value. */
  type Config = map<string, JsValue>
}
