/** `notFound` and `errorHandler` (backend/src/middleware/errorHandler.js). */
module ErrorHandler {
  import opened Strings
  import opened Errors

  /** One entry of a Sequelize error's `errors` array. */
  datatype ItemError = ItemError(message: string, path: string)

  /**
   * What reaches the handler: an `ApiError`, or any other error, known by its
   * `name` and, for Sequelize errors, its `errors` array.
   */
  datatype Thrown = Api(error: ApiError) | Other(name: string, errors: seq<ItemError>)

  /** The JSON body sent back; the development-only `stack` is not modelled. */
  datatype ErrorResponse = ErrorResponse(status: int, success: bool, message: string, code: int)

  const ValidationName := "SequelizeValidationError"
  const ValidationPrefix := "数据验证失败: "
  const UniqueName := "SequelizeUniqueConstraintError"
  const ForeignKeyName := "SequelizeForeignKeyConstraintError"
  const DatabaseName := "SequelizeDatabaseError"

  /** `notFound`: the error passed on for a request no route matched. */
  function NotFound(originalUrl: string): (e: ApiError)
    ensures e.statusCode == 404
    ensures e.message == "接口 " + originalUrl + " 不存在"
  {
    ApiError(404, "接口 " + originalUrl + " 不存在")
  }

  function Messages(errors: seq<ItemError>): (r: seq<string>)
    ensures |r| == |errors|
    ensures forall i :: 0 <= i < |r| ==> r[i] == errors[i].message
  {
    seq(|errors|, i requires 0 <= i < |errors| => errors[i].message)
  }

  function AlreadyExists(errors: seq<ItemError>): (r: seq<string>)
    ensures |r| == |errors|
    ensures forall i :: 0 <= i < |r| ==> r[i] == errors[i].path + " 已存在"
  {
    seq(|errors|, i requires 0 <= i < |errors| => errors[i].path + " 已存在")
  }

  /**
   * The `ApiError` the handler responds with: Sequelize validation,
   * unique-constraint and foreign-key errors become 400, a database error
   * 500, any other non-`ApiError` 500, and an `ApiError` is kept. An
   * `ApiError` is never renamed, because its name is always "ApiError".
   */
  function Normalize(err: Thrown): (e: ApiError)
    ensures err.Api? ==> e == err.error
    ensures err.Other? ==>
      (e.statusCode == 400 <==> err.name in {ValidationName, UniqueName, ForeignKeyName})
    ensures err.Other? ==>
      (e.statusCode == 500 <==> err.name !in {ValidationName, UniqueName, ForeignKeyName})
    ensures err.Other? && err.name == ValidationName ==>
      e.message == ValidationPrefix + Join(Messages(err.errors), ", ")
    ensures err.Other? && err.name == UniqueName ==> e.message == Join(AlreadyExists(err.errors), ", ")
    ensures err.Other? && err.name == ForeignKeyName ==> e.message == "关联数据不存在"
    ensures err.Other? && err.name == DatabaseName ==> e.message == "数据库操作失败"
    ensures err.Other? && err.name !in {ValidationName, UniqueName, ForeignKeyName, DatabaseName} ==>
      e.message == "服务器内部错误"
  {
    match err
    case Api(e) => e
    case Other(name, errors) =>
      if name == ValidationName then ApiError(400, ValidationPrefix + Join(Messages(errors), ", "))
      else if name == UniqueName then ApiError(400, Join(AlreadyExists(errors), ", "))
      else if name == ForeignKeyName then ApiError(400, "关联数据不存在")
      else if name == DatabaseName then ApiError(500, "数据库操作失败")
      else ApiError(500, "服务器内部错误")
  }

  /** `errorHandler`: the status and body sent for a thrown error. */
  function Handle(err: Thrown): (r: ErrorResponse)
    ensures r.status == r.code && !r.success
    ensures r.code == Normalize(err).statusCode && r.message == Normalize(err).message
  {
    var e := Normalize(err);
    ErrorResponse(e.statusCode, false, e.message, e.statusCode)
  }

  /** Re-throwing the normalized error yields the same response: normalization is idempotent. */
  lemma HandleIdempotent(err: Thrown)
    ensures Handle(Api(Normalize(err))) == Handle(err)
  {
  }

  /** An unmatched route always answers 404 and names the URL. */
  lemma NotFoundResponds404(originalUrl: string)
    ensures Handle(Api(NotFound(originalUrl))).status == 404
    ensures Contains(Handle(Api(NotFound(originalUrl))).message, originalUrl)
  {
    var m := Handle(Api(NotFound(originalUrl))).message;
    assert OccursAt(m, originalUrl, |"接口 "|);
    ContainsIff(m, originalUrl);
  }

  /** A validation error with one entry reports exactly that entry's message. */
  lemma SingleValidationMessage(message: string, path: string)
    ensures Handle(Other(ValidationName, [ItemError(message, path)])).message == ValidationPrefix + message
  {
    assert Messages([ItemError(message, path)]) == [message];
  }

  /** Each further unique-constraint entry adds `", " + path + " 已存在"`. */
  lemma UniqueMessageSnoc(errors: seq<ItemError>, x: ItemError)
    requires errors != []
    ensures Handle(Other(UniqueName, errors + [x])).message ==
            Handle(Other(UniqueName, errors)).message + ", " + x.path + " 已存在"
  {
    assert AlreadyExists(errors + [x]) == AlreadyExists(errors) + [x.path + " 已存在"];
    JoinSnoc(AlreadyExists(errors), x.path + " 已存在", ", ");
  }

  /** A thrown `ApiError` keeps its own status whatever it is. */
  lemma ApiErrorKeepsStatus(e: ApiError)
    ensures Handle(Api(e)).status == e.statusCode && Handle(Api(e)).message == e.message
  {
  }
}
