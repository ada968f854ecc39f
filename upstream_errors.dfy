/** Classification of a failed completion call by the text of its exception (app.py:202-207, 237-242). */
module UpstreamErrors {
  import opened Text

  /**
   * The two fixed messages of app.py:203 and app.py:205, character for character.
   * They are written as concatenations so that the verifier can inspect their
   * characters piece by piece.
   */
  const AuthenticationMessage: string :=
    "Authentication failed. " + "Please check your API key " + "and endpoint configuration."
  const ForbiddenMessage: string :=
    "Access forbidden. " + "Please check your permissions " + "and deployment name."

  datatype UpstreamError =
    | AuthenticationFailed
    | AccessForbidden
    | Passthrough(detail: string)
  {
    /** The text of the exception that is raised for this error. */
    function Message(): string {
      match this
      case AuthenticationFailed => AuthenticationMessage
      case AccessForbidden => ForbiddenMessage
      case Passthrough(d) => d
    }
  }

  /**
   * An error naming `401` or `Unauthorized` is an authentication failure, even when
   * it also names `403`; otherwise one naming `403` is a permission failure;
   * anything else is re-raised as it was.
   */
  function Classify(err: string): (k: UpstreamError)
    ensures k == AuthenticationFailed <==> Contains(err, "401") || Contains(err, "Unauthorized")
    ensures k == AccessForbidden <==>
      !Contains(err, "401") && !Contains(err, "Unauthorized") && Contains(err, "403")
    ensures k.Passthrough? ==> k.detail == err
  {
    if Contains(err, "401") || Contains(err, "Unauthorized") then AuthenticationFailed
    else if Contains(err, "403") then AccessForbidden
    else Passthrough(err)
  }

  /** The text the caller finally sees for a failed completion call. */
  function ClassifiedMessage(err: string): string {
    Classify(err).Message()
  }

  /** A text in which neither `4` nor `U` occurs is classified as itself. */
  lemma NeutralText(m: string)
    requires '4' !in m && 'U' !in m
    ensures Classify(m) == Passthrough(m)
  {
    LacksFirstChar(m, "401");
    LacksFirstChar(m, "Unauthorized");
    LacksFirstChar(m, "403");
  }

  lemma AuthenticationMessageLacksFour()
    ensures '4' !in AuthenticationMessage
  {
  }

  lemma AuthenticationMessageLacksU()
    ensures 'U' !in AuthenticationMessage
  {
  }

  lemma ForbiddenMessageLacksFour()
    ensures '4' !in ForbiddenMessage
  {
  }

  lemma ForbiddenMessageLacksU()
    ensures 'U' !in ForbiddenMessage
  {
  }

  /** The authentication message is not itself reclassified. */
  lemma AuthenticationMessageIsFinal()
    ensures Classify(AuthenticationMessage) == Passthrough(AuthenticationMessage)
  {
    AuthenticationMessageLacksFour();
    AuthenticationMessageLacksU();
    NeutralText(AuthenticationMessage);
  }

  /** Nor is the permission message. */
  lemma ForbiddenMessageIsFinal()
    ensures Classify(ForbiddenMessage) == Passthrough(ForbiddenMessage)
  {
    ForbiddenMessageLacksFour();
    ForbiddenMessageLacksU();
    NeutralText(ForbiddenMessage);
  }

  /** Classifying an already classified error text changes nothing. */
  lemma ClassifyIdempotent(err: string)
    ensures ClassifiedMessage(ClassifiedMessage(err)) == ClassifiedMessage(err)
  {
    var k := Classify(err);
    if k == AuthenticationFailed {
      AuthenticationMessageIsFinal();
    } else if k == AccessForbidden {
      ForbiddenMessageIsFinal();
    }
  }
}
