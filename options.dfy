/**
 * The option checks of `SaveToMongo`: the `bulk` checks the constructor runs
 * synchronously, and the `uri` / `collection` / `connection` checks that `connect`
 * runs lazily on the first write.
 */
module Options {
  import opened Wrappers
  import opened Js

  /** The ordering tag of a bulk group: `initializeOrderedBulkOp` or `initializeUnorderedBulkOp`. */
  datatype Mode = Ordered | Unordered

  /** A buffer size the bulk path can divide by. */
  type BufferSize = n: int | n > 0 witness 1

  const DefaultBufferSize: BufferSize := 1000

  datatype BulkConfig = BulkConfig(mode: Mode, bufferSize: BufferSize)

  /** What a successful construction keeps: the options object, and `this.bulk` when batching. */
  datatype Settings = Settings(options: Value, bulk: Option<BulkConfig>)

  /** The three errors the constructor throws. */
  datatype ConfigError = BulkNotObject | InvalidMode | InvalidBufferSize {
    function Message(): string {
      match this
      case BulkNotObject => "Option `bulk` must be an object"
      case InvalidMode => "Option `bulk.mode` must be a string and can be \"ordered\" or \"unordered\""
      case InvalidBufferSize => "Option `bulk.bufferSize` must be a number greater than 0"
    }

    /** The first is thrown as a `TypeError`, the other two as plain `Error`s. */
    predicate IsTypeError() {
      BulkNotObject?
    }
  }

  /** `opts || {}` */
  function Normalize(opts: Value): Value {
    Or(opts, Obj(map[]))
  }

  /** The mode strings the constructor accepts. */
  predicate IsModeName(v: Value) {
    v == Str("ordered") || v == Str("unordered")
  }

  /** A `bulk.bufferSize` the constructor lets through: falsy, or a positive number. */
  predicate AcceptableBufferSize(v: Value) {
    !Truthy(v) || (v.Num? && v.n > 0)
  }

  /** The `bulk` values the constructor accepts, stated positively. */
  predicate AcceptableBulk(bulk: Value) {
    !Truthy(bulk) || (bulk.Obj? && IsModeName(Get(bulk, "mode")) && AcceptableBufferSize(Get(bulk, "bufferSize")))
  }

  /**
   * The constructor's checks and defaults. Construction fails exactly when `bulk` is
   * truthy and is not an object, has a mode other than the two names, or has a truthy
   * buffer size that is not a positive number; the first failing check decides the
   * error. A falsy buffer size, 0 included, becomes 1000.
   */
  function ValidateOptions(opts: Value): (r: Result<Settings, ConfigError>)
    ensures r.Success? <==> AcceptableBulk(Get(Normalize(opts), "bulk"))
    ensures r.Failure? ==>
      var bulk := Get(Normalize(opts), "bulk");
      && (r.error == BulkNotObject <==> !bulk.Obj?)
      && (r.error == InvalidMode <==> bulk.Obj? && !IsModeName(Get(bulk, "mode")))
    ensures r.Success? ==>
      var bulk := Get(Normalize(opts), "bulk");
      var size := Get(bulk, "bufferSize");
      && r.value.options == Normalize(opts)
      && (r.value.bulk.Some? <==> Truthy(bulk))
      && (r.value.bulk.Some? ==>
            && (r.value.bulk.value.mode == Ordered <==> Get(bulk, "mode") == Str("ordered"))
            && r.value.bulk.value.bufferSize == (if Truthy(size) then size.n else DefaultBufferSize))
  {
    var options := Normalize(opts);
    var bulk := Get(options, "bulk");
    if !Truthy(bulk) then
      Success(Settings(options, None))
    else if TypeOf(bulk) != "object" then
      Failure(BulkNotObject)
    else
      var mode := Get(bulk, "mode");
      var size := Get(bulk, "bufferSize");
      if mode != Str("ordered") && mode != Str("unordered") then
        Failure(InvalidMode)
      else if Truthy(size) && (TypeOf(size) != "number" || size.n <= 0) then
        Failure(InvalidBufferSize)
      else
        var tag := if mode == Str("ordered") then Ordered else Unordered;
        Success(Settings(options, Some(BulkConfig(tag, if Truthy(size) then size.n else DefaultBufferSize))))
  }

  /** `bufferSize: 0` is falsy, skips the check and is replaced by the default. */
  lemma ZeroBufferSizeIsDefaulted(mode: string)
    requires mode == "ordered" || mode == "unordered"
    ensures var r := ValidateOptions(Obj(map["bulk" := Obj(map["mode" := Str(mode), "bufferSize" := Num(0)])]));
            r.Success? && r.value.bulk.Some? && r.value.bulk.value.bufferSize == 1000
  {
  }

  /** The arguments `connect` hands to the driver once its checks pass. */
  datatype Target = Target(uri: string, collection: string, connection: Value)

  /** The three errors `connect` emits as `'error'` events, all `TypeError`s. */
  datatype ConnectOptionError = UriNotString | CollectionNotString | ConnectionNotObject {
    function Message(): string {
      match this
      case UriNotString => "Option `uri` must be a string"
      case CollectionNotString => "Option `collection` must be a string"
      case ConnectionNotObject => "Option `connection` must be an object"
    }
  }

  /** Options `connect` accepts: string `uri` and `collection`, and a falsy or object `connection`. */
  predicate Connectable(options: Value) {
    && Get(options, "uri").Str?
    && Get(options, "collection").Str?
    && (!Truthy(Get(options, "connection")) || Get(options, "connection").Obj?)
  }

  /**
   * The checks at the top of `connect`, in the order uri, collection, connection;
   * on success the driver gets the uri, the collection name and `connection || {}`.
   */
  function CheckConnectOptions(options: Value): (r: Result<Target, ConnectOptionError>)
    ensures r.Success? <==> Connectable(options)
    ensures r.Failure? ==>
      && (r.error == UriNotString <==> !Get(options, "uri").Str?)
      && (r.error == CollectionNotString <==> Get(options, "uri").Str? && !Get(options, "collection").Str?)
    ensures r.Success? ==>
      && Str(r.value.uri) == Get(options, "uri")
      && Str(r.value.collection) == Get(options, "collection")
      && r.value.connection == (if Truthy(Get(options, "connection")) then Get(options, "connection") else Obj(map[]))
  {
    var uri := Get(options, "uri");
    var collection := Get(options, "collection");
    var connection := Get(options, "connection");
    if TypeOf(uri) != "string" then
      Failure(UriNotString)
    else if TypeOf(collection) != "string" then
      Failure(CollectionNotString)
    else if Truthy(connection) && TypeOf(connection) != "object" then
      Failure(ConnectionNotObject)
    else
      Success(Target(uri.s, collection.s, Or(connection, Obj(map[]))))
  }
}
