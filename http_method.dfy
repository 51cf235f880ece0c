/** `HttpMethod` (core/.../request/HttpMethod.kt): the seven verbs the
    library supports; TRACE is deliberately not among them. */
module HttpMethods {

  datatype HttpMethod = GET | POST | HEAD | PUT | PATCH | DELETE | OPTIONS

  /** Every verb, in declaration order. */
  const AllMethods: seq<HttpMethod> := [GET, POST, HEAD, PUT, PATCH, DELETE, OPTIONS]

  /** `hasBody()`: the verbs whose request carries a body. */
  function HasBody(m: HttpMethod): (r: bool)
    ensures r <==> m in {POST, PUT, PATCH}
    ensures !r <==> m in {GET, HEAD, DELETE, OPTIONS}
  {
    match m
    case POST => true
    case PUT => true
    case PATCH => true
    case _ => false
  }

  /** The enum constant's name, as `toString()` prints it. */
  function Name(m: HttpMethod): (r: string)
    ensures r != []
  {
    match m
    case GET => "GET"
    case POST => "POST"
    case HEAD => "HEAD"
    case PUT => "PUT"
    case PATCH => "PATCH"
    case DELETE => "DELETE"
    case OPTIONS => "OPTIONS"
  }

  /** The enum lists seven distinct verbs and no other; names tell them
      apart. */
  lemma SevenVerbs(m: HttpMethod, n: HttpMethod)
    ensures m in AllMethods
    ensures |AllMethods| == 7
    ensures forall i, j :: 0 <= i < j < |AllMethods| ==> AllMethods[i] != AllMethods[j]
    ensures Name(m) == Name(n) ==> m == n
  {
  }

  /** Exactly three of the seven verbs carry a body. */
  lemma ThreeWithBody()
    ensures |set m | m in AllMethods && HasBody(m)| == 3
    ensures |set m | m in AllMethods && !HasBody(m)| == 4
  {
    assert (set m | m in AllMethods && HasBody(m)) == {POST, PUT, PATCH};
    assert (set m | m in AllMethods && !HasBody(m)) == {GET, HEAD, DELETE, OPTIONS};
  }
}
