/** The Tongyi (DashScope) model-to-endpoint table. */
module Tongyi {

  /** https://dashscope.aliyuncs.com/api/v1/services/aigc/text-generation/generation */
  const TextGenerationUrl: string :=
    "https://" + "dashscope" + ".aliyuncs.com" + "/api/v1" + "/services" + "/aigc" + "/text-generation" + "/generation"

  /** https://dashscope.aliyuncs.com/api/v1/services/aigc/multimodal-generation/generation */
  const MultimodalGenerationUrl: string :=
    "https://" + "dashscope" + ".aliyuncs.com" + "/api/v1" + "/services" + "/aigc" + "/multimodal-generation" + "/generation"

  /** The text models, which share one endpoint. */
  predicate IsTextModel(model: string) {
    model == "qwen-turbo" || model == "qwen-plus" || model == "qwen-max"
  }

  /** The vision-language model. */
  predicate IsMultimodalModel(model: string) {
    model == "qwen-vl-plus"
  }

  /** `getTongyiChatUrl`: the endpoint of a model, or `''` for a model the table does not know. */
  function ChatUrl(model: string): (r: string)
    ensures IsTextModel(model) ==> r == TextGenerationUrl
    ensures IsMultimodalModel(model) ==> r == MultimodalGenerationUrl
    ensures r != "" <==> IsTextModel(model) || IsMultimodalModel(model)
  {
    match model
    case "qwen-turbo" => TextGenerationUrl
    case "qwen-plus" => TextGenerationUrl
    case "qwen-max" => TextGenerationUrl
    case "qwen-vl-plus" => MultimodalGenerationUrl
    case _ => ""
  }

  /** The text and multimodal endpoints differ, so the table tells the two kinds of model apart. */
  lemma EndpointsDiffer(textModel: string, multimodalModel: string)
    requires IsTextModel(textModel) && IsMultimodalModel(multimodalModel)
    ensures ChatUrl(textModel) != ChatUrl(multimodalModel)
  {
    var a := "/text-generation" + "/generation";
    var b := "/multimodal-generation" + "/generation";
    var p := "https://" + "dashscope" + ".aliyuncs.com" + "/api/v1" + "/services" + "/aigc";
    assert TextGenerationUrl == p + a;
    assert MultimodalGenerationUrl == p + b;
    assert (p + a)[|p| + 1] == 't';
    assert (p + b)[|p| + 1] == 'm';
  }
}
