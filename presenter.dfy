/** The severity tier the result panel shows for a parsed response body. */
module Presenter {
  import opened Json

  datatype Tier = Elevated | Low

  /** `result.prediction === 1`: strict equality with the number one, so a
      missing member, a string "1" or `true` all give the low tier. */
  function SeverityTier(result: Json): (t: Tier)
    ensures t == Elevated <==>
            result.JObject? && "prediction" in result.fields && result.fields["prediction"] == JNumber(1.0)
  {
    if Member(result, "prediction") == Some(JNumber(1.0)) then Elevated else Low
  }

  /** The body the prediction route answers with on success. */
  function SuccessReply(prediction: int, probability: real): Json {
    JObject(map["probability" := JNumber(probability),
                "prediction" := JNumber(prediction as real),
                "status" := JString("success")])
  }

  /** The body the prediction route answers with on an error, whatever the
      HTTP status it comes with. */
  function ErrorReply(message: string): Json {
    JObject(map["error" := JString(message)])
  }

  /** A success reply is shown elevated exactly when it predicts class 1,
      whatever its probability. */
  lemma TierOfSuccessReply(prediction: int, probability: real)
    ensures SeverityTier(SuccessReply(prediction, probability)) == Elevated <==> prediction == 1
  {
  }

  /** An error reply carries no prediction, so it is shown as low risk. */
  lemma TierOfErrorReply(message: string)
    ensures SeverityTier(ErrorReply(message)) == Low
  {
  }
}
