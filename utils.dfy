/**
  js/utils.js: the browser session. `systemData` holds the logged-in user and
  the company record; both are mirrored in localStorage under two keys as
  JSON text. Storage is modelled as a map from key to the JSON value whose
  text is stored, so `JSON.parse(JSON.stringify(v)) == v`.
*/
module Utils {
  /** The JSON values the session stores. Numbers are integers. */
  datatype Json =
    | JNull
    | JBool(b: bool)
    | JNum(n: int)
    | JStr(s: string)
    | JObject(props: map<string, Json>)

  /** JavaScript truthiness of a parsed value (objects are always truthy). */
  predicate JsonTruthy(j: Json) {
    match j
    case JNull => false
    case JBool(b) => b
    case JNum(n) => n != 0
    case JStr(s) => s != ""
    case JObject(_) => true
  }

  /** `j.key`, with `undefined` (a missing key or a non-object) read as null. */
  function Prop(j: Json, key: string): (v: Json)
    ensures v != JNull ==> j.JObject? && key in j.props && v == j.props[key]
    ensures j.JObject? && key in j.props ==> v == j.props[key]
  {
    if j.JObject? && key in j.props then j.props[key] else JNull
  }

  const LoggedInUserKey: string := "loggedInUser"
  const CompanyInfoKey: string := "companyInfo"

  /** localStorage: a missing key is `getItem(key) === null`. */
  type Storage = map<string, Json>

  /** `JSON.parse(localStorage.getItem(key)) || null`: the stored value when it
      is truthy, null when the key is missing or holds a falsy value. */
  function Restore(storage: Storage, key: string): (v: Json)
    ensures JsonTruthy(v) <==> key in storage && JsonTruthy(storage[key])
    ensures JsonTruthy(v) ==> v == storage[key]
    ensures !JsonTruthy(v) ==> v == JNull
  {
    if key in storage && JsonTruthy(storage[key]) then storage[key] else JNull
  }

  /** The two `setItem` calls of saveUserData. */
  function SavedStorage(storage: Storage, user: Json, company: Json): Storage {
    storage[LoggedInUserKey := user][CompanyInfoKey := company]
  }

  /** The two `removeItem` calls of clearUserData. */
  function ClearedStorage(storage: Storage): Storage {
    storage - {LoggedInUserKey, CompanyInfoKey}
  }

  /** A start-up after saveUserData reproduces both saved values (a falsy one
      comes back as null), and every other key is untouched. */
  lemma RestoreAfterSave(storage: Storage, user: Json, company: Json)
    ensures Restore(SavedStorage(storage, user, company), LoggedInUserKey) == (if JsonTruthy(user) then user else JNull)
    ensures Restore(SavedStorage(storage, user, company), CompanyInfoKey) == (if JsonTruthy(company) then company else JNull)
    ensures forall k :: k != LoggedInUserKey && k != CompanyInfoKey ==>
      (k in SavedStorage(storage, user, company) <==> k in storage)
      && (k in storage ==> SavedStorage(storage, user, company)[k] == storage[k])
  {
  }

  /** A start-up after clearUserData yields null for both fields, whatever
      was stored before, and every other key is untouched. */
  lemma RestoreAfterClear(storage: Storage)
    ensures Restore(ClearedStorage(storage), LoggedInUserKey) == JNull
    ensures Restore(ClearedStorage(storage), CompanyInfoKey) == JNull
    ensures forall k :: k != LoggedInUserKey && k != CompanyInfoKey ==>
      (k in ClearedStorage(storage) <==> k in storage)
      && (k in storage ==> ClearedStorage(storage)[k] == storage[k])
  {
  }

  /** Clearing twice is clearing once. */
  lemma ClearIdempotent(storage: Storage)
    ensures ClearedStorage(ClearedStorage(storage)) == ClearedStorage(storage)
  {
  }

  /** The module-level `systemData` object together with the localStorage it mirrors. */
  class SystemData {
    var loggedInUser: Json
    var companyInfo: Json
    var storage: Storage

    /** The in-memory fields agree with what a start-up would restore. */
    predicate InSync()
      reads this
    {
      loggedInUser == Restore(storage, LoggedInUserKey) && companyInfo == Restore(storage, CompanyInfoKey)
    }

    /** Module start-up: both fields are read back from storage. */
    constructor (stored: Storage)
      ensures storage == stored
      ensures loggedInUser == Restore(stored, LoggedInUserKey)
      ensures companyInfo == Restore(stored, CompanyInfoKey)
      ensures InSync()
    {
      storage := stored;
      loggedInUser := Restore(stored, LoggedInUserKey);
      companyInfo := Restore(stored, CompanyInfoKey);
    }

    method SaveUserData(user: Json, company: Json)
      modifies this
      ensures loggedInUser == user && companyInfo == company
      ensures storage == SavedStorage(old(storage), user, company)
      ensures JsonTruthy(user) && JsonTruthy(company) ==> InSync()
    {
      loggedInUser := user;
      companyInfo := company;
      storage := storage[LoggedInUserKey := user];
      storage := storage[CompanyInfoKey := company];
      RestoreAfterSave(old(storage), user, company);
    }

    method ClearUserData()
      modifies this
      ensures loggedInUser == JNull && companyInfo == JNull
      ensures storage == ClearedStorage(old(storage))
      ensures InSync()
    {
      loggedInUser := JNull;
      companyInfo := JNull;
      storage := storage - {LoggedInUserKey};
      storage := storage - {CompanyInfoKey};
      assert storage == ClearedStorage(old(storage));
      RestoreAfterClear(old(storage));
    }
  }
}
