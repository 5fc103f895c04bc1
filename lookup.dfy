/** Looking a key up in the manifest. The worker keeps manifests as plain
    JavaScript objects and tests `!RESOURCES[key]` and
    `RESOURCES[key] != oldManifest[key]`. A plain object also answers for the
    names it inherits from `Object.prototype`, so as written those tests see
    `toString`, `constructor` and the like as listed resources. The model
    uses own-property lookup, which is what the tests are evidently for, and
    keeps the as-written lookup beside it to show where the two part. */
module Lookup {

  /** A manifest: resource key to content fingerprint. */
  type Manifest = map<string, string>

  /** What `obj[key]` gives on a plain object built from a manifest. */
  datatype JsValue =
    | Undefined
    | Str(s: string)
    | Inherited(name: string)   // the member `Object.prototype[name]`

  /** The names every plain object inherits from `Object.prototype`. */
  const ObjectPrototypeNames: set<string> := {
    "constructor", "hasOwnProperty", "isPrototypeOf", "propertyIsEnumerable",
    "toLocaleString", "toString", "valueOf", "__proto__",
    "__defineGetter__", "__defineSetter__", "__lookupGetter__", "__lookupSetter__"
  }

  /** `obj[key]`: an own property shadows an inherited one. */
  function Get(obj: Manifest, key: string): (v: JsValue)
    ensures v.Str? <==> key in obj
    ensures v.Inherited? <==> key !in obj && key in ObjectPrototypeNames
    ensures v.Str? ==> v.s == obj[key]
  {
    if key in obj then Str(obj[key])
    else if key in ObjectPrototypeNames then Inherited(key)
    else Undefined
  }

  /** JavaScript truthiness: `undefined` and `""` are falsy, functions and
      objects are truthy. */
  predicate Truthy(v: JsValue) {
    match v
    case Undefined => false
    case Str(s) => s != ""
    case Inherited(_) => true
  }

  /** `!!RESOURCES[key]` as written (flutter_service_worker.js:168, 210). */
  predicate ListedAsWritten(resources: Manifest, key: string) {
    Truthy(Get(resources, key))
  }

  /** The survival test of the activate handler as written
      (flutter_service_worker.js:168): not `!RESOURCES[key] ||
      RESOURCES[key] != oldManifest[key]`. */
  predicate KeepsAsWritten(resources: Manifest, previous: Manifest, key: string) {
    !(!Truthy(Get(resources, key)) || Get(resources, key) != Get(previous, key))
  }

  /** The key is a resource of the manifest: an own key whose fingerprint is
      not the empty string. */
  predicate Listed(resources: Manifest, key: string) {
    key in resources && resources[key] != ""
  }

  /** A cached entry with this key survives an upgrade from `previous` to
      `resources`: it is listed, and its fingerprint is the one recorded. */
  predicate Keeps(resources: Manifest, previous: Manifest, key: string) {
    Listed(resources, key) && key in previous && previous[key] == resources[key]
  }

  /** Away from the inherited names the as-written tests are the intended ones. */
  lemma AsWrittenAgreesOnOwnKeys(resources: Manifest, previous: Manifest, key: string)
    requires key !in ObjectPrototypeNames
    ensures ListedAsWritten(resources, key) <==> Listed(resources, key)
    ensures KeepsAsWritten(resources, previous, key) <==> Keeps(resources, previous, key)
  {
  }

  /** As written, an inherited name is listed in every manifest that does not
      own it, and an entry stored under it survives every upgrade between two
      such manifests; neither holds of the intended tests. */
  lemma InheritedNamesPassAsWritten(resources: Manifest, previous: Manifest, key: string)
    requires key in ObjectPrototypeNames && key !in resources && key !in previous
    ensures ListedAsWritten(resources, key) && !Listed(resources, key)
    ensures KeepsAsWritten(resources, previous, key) && !Keeps(resources, previous, key)
  {
  }

  /** Only what the new manifest lists can survive, and only at the recorded
      fingerprint, so a manifest always keeps its own entries. */
  lemma KeepsIsListedAndRecorded(resources: Manifest, previous: Manifest, key: string)
    ensures Keeps(resources, previous, key) ==> Listed(resources, key) && Listed(previous, key)
    ensures Keeps(resources, resources, key) <==> Listed(resources, key)
  {
  }
}
