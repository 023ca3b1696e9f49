/** What a Next.js API route writes into its response object, as one value. */
module Http {
  import opened Js

  /** The status code, the `Allow` header if one was set, and the body. */
  datatype Response<+B> = Response(status: int, allow: Option<seq<string>>, body: B)

  /** How a template literal renders `req.method`, which Node leaves `undefined` when absent. */
  function MethodText(verb: Option<string>): string
  {
    match verb
    case None => "undefined"
    case Some(m) => m
  }

  /** The text the 405 branch ends the response with: `Method ${req.method} Not Allowed`. */
  function NotAllowedText(verb: Option<string>): (t: string)
    ensures |t| == |MethodText(verb)| + 19
    ensures t[..7] == "Method "
    ensures t[7..|t| - 12] == MethodText(verb)
    ensures t[|t| - 12..] == " Not Allowed"
  {
    "Method " + MethodText(verb) + " Not Allowed"
  }
}
