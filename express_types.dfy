/** `isAuthenticatedRequest` (src/types/express.ts): the type guard on
    `req.user`, whose run-time value may be anything. */
module ExpressTypes {
  import opened Js

  /** `req.user !== undefined && typeof req.user === "object" && req.user !== null && "id" in req.user` */
  function IsAuthenticatedRequest(user: JsValue): (b: bool)
    ensures b <==> user.Obj? && HasKey(user.props, "id")
    ensures user.Undefined? || user.Null? || TypeOf(user) != "object" ==> !b
  {
    !user.Undefined? && TypeOf(user) == "object" && !user.Null? && HasProperty(user, "id")
  }

  /** Whatever the value of the `id` key, an object holding it passes. */
  lemma AnyIdValuePasses(props: seq<(string, JsValue)>, id: JsValue)
    ensures IsAuthenticatedRequest(Obj(props + [("id", id)]))
  {
    var ps := props + [("id", id)];
    assert ps[|props|].0 == "id";
  }
}
