/** The fixed-endpoint adapters of src/utils/openai.ts: each builds an
    OpenAI-style request for one vendor with a fixed model name, temperature
    0.3 and 2048 output tokens, and streams it like the generic adapter. */
module OpenAICompat {
  import opened Seqs
  import opened Messages
  import opened Outgoing
  import opened OpenAIApi

  const KimiUrl: string := "https://api.moonshot.cn/v1/"
  const YiUrl: string := "https://api.lingyiwanwu.com/v1/"
  const BaichuanUrl: string := "https://api.baichuan-ai.com/v1/"
  const OpenAIUrl: string := "https://api.openai.com/v1/"

  const KimiModel: string := "moonshot-v1-8k"
  const YiShortModel: string := "yi-34b-chat-0205"
  const YiLongModel: string := "yi-34b-chat-200k"
  const BaichuanModel: string := "Baichuan2-Turbo"
  const OpenAIModel: string := "gpt-3.5-turbo"

  /** The output-token limit of the fixed adapters. */
  const MaxTokens: real := 2048.0

  /** The summed content length of a message list, unfiltered. */
  function TotalContent(ms: seq<Message>): (n: nat)
    ensures |ms| == 0 ==> n == 0
    decreases |ms|
  {
    if |ms| == 0 then 0 else TotalContent(ms[..|ms| - 1]) + |ms[|ms| - 1].content|
  }

  /** The summed length only grows as messages are appended. */
  lemma {:induction false} TotalContentPrefix(ms: seq<Message>, k: nat)
    requires k <= |ms|
    ensures TotalContent(ms[..k]) <= TotalContent(ms)
    decreases |ms| - k
  {
    if k < |ms| {
      TotalContentPrefix(ms, k + 1);
      assert ms[..k + 1][..k] == ms[..k];
    } else {
      assert ms[..k] == ms;
    }
  }

  /** Yi's model choice: the short-context model while the messages total
      fewer than 3000 characters. */
  function YiModelFor(ms: seq<Message>): (r: string)
    ensures r == YiShortModel || r == YiLongModel
    ensures r == YiShortModel <==> TotalContent(ms) < 3000
  {
    if TotalContent(ms) < 3000 then YiShortModel else YiLongModel
  }

  /** Once a conversation needs the long-context model, every longer one
      does too. */
  lemma YiLongStaysLong(ms: seq<Message>, k: nat)
    requires k <= |ms| && YiModelFor(ms[..k]) == YiLongModel
    ensures YiModelFor(ms) == YiLongModel
  {
    TotalContentPrefix(ms, k);
  }

  /** The request of a fixed adapter. */
  method FixedRequest(apiKey: string, url: string, model: string, ms: seq<Message>) returns (r: Request)
    ensures r.apiKey == apiKey && r.baseUrl == url
    ensures r.data == ChatData(model, Prepare(ms, ToWire), Temperature, MaxTokens, true)
  {
    var d := PrepareChatData(ms, model, Temperature, MaxTokens);
    r := Request(apiKey, url, d);
  }

  /** `callKimi`. */
  method CallKimi(apiKey: string, ms: seq<Message>) returns (r: Request)
    ensures r.baseUrl == KimiUrl && r.apiKey == apiKey
    ensures r.data == ChatData(KimiModel, Prepare(ms, ToWire), Temperature, MaxTokens, true)
  {
    r := FixedRequest(apiKey, KimiUrl, KimiModel, ms);
  }

  /** `callYi`: the model is chosen on the unfiltered message list. */
  method CallYi(apiKey: string, ms: seq<Message>) returns (r: Request)
    ensures r.baseUrl == YiUrl && r.apiKey == apiKey
    ensures r.data == ChatData(YiModelFor(ms), Prepare(ms, ToWire), Temperature, MaxTokens, true)
  {
    r := FixedRequest(apiKey, YiUrl, YiModelFor(ms), ms);
  }

  /** `callBaichuan`. */
  method CallBaichuan(apiKey: string, ms: seq<Message>) returns (r: Request)
    ensures r.baseUrl == BaichuanUrl && r.apiKey == apiKey
    ensures r.data == ChatData(BaichuanModel, Prepare(ms, ToWire), Temperature, MaxTokens, true)
  {
    r := FixedRequest(apiKey, BaichuanUrl, BaichuanModel, ms);
  }

  /** `callOpenAI`. */
  method CallOpenAI(apiKey: string, ms: seq<Message>) returns (r: Request)
    ensures r.baseUrl == OpenAIUrl && r.apiKey == apiKey
    ensures r.data == ChatData(OpenAIModel, Prepare(ms, ToWire), Temperature, MaxTokens, true)
  {
    r := FixedRequest(apiKey, OpenAIUrl, OpenAIModel, ms);
  }
}
