/**
 * The options object of a bridge (lib/transworker-options.js): fills in the
 * defaults for `shared` and `syncType`, writes them back into the caller's
 * object, and refuses anything but a boolean `shared` and one of the two
 * synchronisation styles.
 */
module TransWorkerOptions {
  import opened Values
  import opened Protocol

  /** The caller's options object, whose two properties the constructor overwrites. */
  class OptionBag {
    var shared: Value
    var syncType: Value

    constructor (shared: Value, syncType: Value)
      ensures this.shared == shared && this.syncType == syncType
    {
      this.shared := shared;
      this.syncType := syncType;
    }
  }

  /** A constructed options instance. */
  datatype Options = Options(shared: bool, syncType: SyncStyle)

  /** What `assert.ok` throws when the validation fails. */
  const AssertionError: string := "AssertionError"

  /** The options used when no options object is given. */
  const DefaultOptions: Options := Options(false, CallbackStyle)

  /** `v != null ? v : fallback`. */
  function Defaulted(v: Value, fallback: Value): Value {
    if IsNullish(v) then fallback else v
  }

  /** The style a validated `syncType` stands for. */
  function StyleOf(v: Value): (s: Option<SyncStyle>)
    ensures s.Some? <==> v == SyncTypeCallback || v == SyncTypePromise
    ensures s.Some? ==> StyleValue(s.value) == v
  {
    if v == SyncTypeCallback then Some(CallbackStyle)
    else if v == SyncTypePromise then Some(PromiseStyle)
    else None
  }

  /**
   * The defaulting and the validation of one options object's properties:
   * a missing `shared` becomes `false` and a missing `syncType` the callback
   * style, each on its own; what remains must be a boolean and one of the two
   * style values.
   */
  function Normalize(shared: Value, syncType: Value): (r: Result<Options>)
    ensures r.Ok? <==>
      (IsNullish(shared) || shared.Bool?) &&
      (IsNullish(syncType) || syncType == SyncTypeCallback || syncType == SyncTypePromise)
    ensures r.Ok? ==> Bool(r.value.shared) == Defaulted(shared, Bool(false))
    ensures r.Ok? ==> StyleValue(r.value.syncType) == Defaulted(syncType, SyncTypeCallback)
    ensures r.Err? ==> r.error == AssertionError
  {
    var s := Defaulted(shared, Bool(false));
    var t := Defaulted(syncType, SyncTypeCallback);
    if s.Bool? && StyleOf(t).Some? then Ok(Options(s.b, StyleOf(t).value))
    else Err(AssertionError)
  }

  /**
   * `new TransWorkerOptions(options)`. A missing (falsy) argument gives the
   * defaults; otherwise both properties of the caller's object are replaced by
   * their defaulted values, which happens before the validation and so also
   * when the construction then throws.
   */
  method Create(options: OptionBag?) returns (r: Result<Options>)
    modifies options
    ensures options == null ==> r == Ok(DefaultOptions)
    ensures options != null ==> r == Normalize(old(options.shared), old(options.syncType))
    ensures options != null ==> options.shared == Defaulted(old(options.shared), Bool(false))
    ensures options != null ==> options.syncType == Defaulted(old(options.syncType), SyncTypeCallback)
  {
    if options == null {
      return Ok(DefaultOptions);
    }
    options.shared := if options.shared != Null && options.shared != Undefined then options.shared else Bool(false);
    options.syncType := if options.syncType != Null && options.syncType != Undefined then options.syncType else SyncTypeCallback;
    if options.shared.Bool? && (options.syncType == SyncTypeCallback || options.syncType == SyncTypePromise) {
      var style := if options.syncType == SyncTypeCallback then CallbackStyle else PromiseStyle;
      r := Ok(Options(options.shared.b, style));
    } else {
      r := Err(AssertionError);
    }
  }

  /** An object with neither property set behaves like no object at all. */
  lemma EmptyObjectGivesDefaults()
    ensures Normalize(Undefined, Undefined) == Ok(DefaultOptions)
  {
  }

  /** Each property is defaulted independently of the other. */
  lemma DefaultsAreIndependent(shared: bool, style: SyncStyle)
    ensures Normalize(Bool(shared), Undefined) == Ok(Options(shared, CallbackStyle))
    ensures Normalize(Null, StyleValue(style)) == Ok(Options(false, style))
  {
  }

  /** Any boolean and any style value are accepted and kept as given. */
  lemma ValidOptionsAreKept(o: Options)
    ensures Normalize(Bool(o.shared), StyleValue(o.syncType)) == Ok(o)
  {
  }

  /**
   * Normalising what was written back into the caller's object gives the same
   * result again, so passing that object a second time constructs the same options.
   */
  lemma NormalizeIdempotent(shared: Value, syncType: Value)
    ensures Normalize(Defaulted(shared, Bool(false)), Defaulted(syncType, SyncTypeCallback)) ==
            Normalize(shared, syncType)
  {
  }

  /** A string, number, object or function `shared` is refused whatever the style. */
  lemma NonBooleanSharedRejected(shared: Value, syncType: Value)
    requires shared.Str? || shared.Num? || shared.Obj? || shared.Fn? || shared.Arr?
    ensures Normalize(shared, syncType).Err?
  {
  }

  /** A string, number, object or boolean `syncType` is refused whatever `shared` is. */
  lemma ForeignSyncTypeRejected(shared: Value, syncType: Value)
    requires syncType.Str? || syncType.Num? || syncType.Obj? || syncType.Bool? || syncType.Arr?
    ensures Normalize(shared, syncType).Err?
  {
  }
}
