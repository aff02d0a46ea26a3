/**
 * The `POST` handler of the chat endpoint and its canned responder.
 *
 * The handler is a function of what it cannot compute itself: whether a
 * session exists, the parsed request body (or the parse error), what the
 * inference endpoint answered, and the index `Math.random` would have
 * picked among the four generic replies.
 */
module ChatRoute {
  import opened Wrappers
  import opened Strings
  import opened ChatTypes

  // ---------------------------------------------------------------- request and response

  /** The parsed JSON body; an absent field is None. */
  datatype RequestBody = RequestBody(message: Option<string>, history: Option<seq<Message>>, model: Option<string>)

  /** One entry of the message list sent upstream. */
  datatype Turn = Turn(role: string, content: string)

  /** The body of the upstream `chat/completions` call. */
  datatype UpstreamRequest = UpstreamRequest(model: string, messages: seq<Turn>, temperature: real, maxTokens: nat, stream: bool)

  /**
   * What the upstream call produced: an OK response with the first choice's
   * content (None when `choices[0].message.content` is missing), a non-OK
   * status, or an exception (network failure, unreadable JSON).
   */
  datatype Upstream = UpstreamOk(content: Option<string>) | UpstreamNotOk(status: int) | UpstreamFailed(reason: string)

  datatype ResponseBody = Reply(message: string) | ErrorBody(error: string, details: Option<string>)

  datatype Response = Response(status: int, body: ResponseBody)

  /** The response, and the upstream request when the handler got as far as sending one. */
  datatype Handled = Handled(response: Response, call: Option<UpstreamRequest>)

  const DefaultModel: string := "gpt-4o"
  const AuthError: string := "GitHub ile giriş yapmalısın knkm! 🔐"
  const BlankError: string := "Boş mesaj gönderemezsin! 😅"
  const ServerError: string := "Sunucu hatası oluştu knkm! 🚨"
  const EmptyReply: string := "Bir hata oluştu, tekrar dener misin? 😅"
  /** The message of the TypeError that `history.map` throws when the body has no history. */
  const HistoryMissing: string := "Cannot read properties of undefined (reading 'map')"
  const Temperature: real := 0.7
  const MaxTokens: nat := 2000

  /** The fixed part of the system preamble; the long texts are constants. */
  const PromptBody: string := " modeli kullanan, Türkçe konuşan, Z kuşağı tarzında rahat bir AI asistanısın. \n        Emoji kullan, samimi konuş ama profesyonel ol. Kod yazabilir, resim çizebilir, her konuda yardım edebilirsin.\n        Kullanıcı premium GitHub hesabı ile limitsiz AI model erişimi var! Model: "

  /** The system preamble, naming the model twice. */
  function SystemPrompt(model: string): string
  {
    "Sen GitHub Models API'si ile çalışan " + model + PromptBody + model + " 🚀"
  }

  /**
   * The upstream message list: the system preamble, then each history entry's
   * role and content in order, then the new user message.
   */
  function BuildMessages(model: string, history: seq<Message>, message: string): (r: seq<Turn>)
    ensures |r| == |history| + 2
    ensures r[0] == Turn("system", SystemPrompt(model))
    ensures forall i :: 0 <= i < |history| ==> r[i + 1] == Turn(RoleName(history[i].role), history[i].content)
    ensures r[|r| - 1] == Turn("user", message)
  {
    [Turn("system", SystemPrompt(model))]
    + seq(|history|, i requires 0 <= i < |history| => Turn(RoleName(history[i].role), history[i].content))
    + [Turn("user", message)]
  }

  /** `data.choices[0]?.message?.content || default`: an empty or missing content gives the default text. */
  function PickReply(content: Option<string>): (r: string)
    ensures r != []
    ensures content.Some? && content.value != [] ==> r == content.value
    ensures content.None? || content == Some([]) ==> r == EmptyReply
  {
    if content.Some? && content.value != [] then content.value else EmptyReply
  }

  /** `POST`: authentication, then the body, then the blank-message check, then one upstream call. */
  function Post(hasSession: bool, body: Result<RequestBody, string>, upstream: Upstream, pick: nat): (h: Handled)
    requires pick < 4
    ensures !hasSession ==> h.response.status == 401 && h.call.None?
    ensures hasSession && body.Failure? ==> h.response.status == 500 && h.call.None?
    ensures h.call.Some? <==>
      && hasSession && body.Success?
      && body.value.message.Some? && !IsBlank(body.value.message.value)
      && body.value.history.Some?
    ensures
      (&& hasSession && body.Success?
       && body.value.message.Some? && !IsBlank(body.value.message.value)
       && body.value.history.None?)
      ==> h.response == Response(500, ErrorBody(ServerError, Some(HistoryMissing))) && h.call.None?
  {
    if !hasSession then
      Handled(Response(401, ErrorBody(AuthError, None)), None)
    else if body.Failure? then
      Handled(Response(500, ErrorBody(ServerError, Some(body.error))), None)
    else
      var b := body.value;
      var model := if b.model.Some? then b.model.value else DefaultModel;
      if b.message.None? || Trim(b.message.value) == [] then
        Handled(Response(400, ErrorBody(BlankError, None)), None)
      else if b.history.None? then
        Handled(Response(500, ErrorBody(ServerError, Some(HistoryMissing))), None)
      else
        var message := b.message.value;
        var call := UpstreamRequest(model, BuildMessages(model, b.history.value, message), Temperature, MaxTokens, false);
        Handled(Answer(upstream, message, model, pick), Some(call))
  }

  /**
   * The response once the upstream call was made: its content on OK, the
   * canned reply on a non-OK status, a 500 when the call threw. Only a
   * 200 carries a message, and that message is never empty.
   */
  function Answer(upstream: Upstream, message: string, model: string, pick: nat): (r: Response)
    requires pick < 4
    ensures r.status == 200 || r.status == 500
    ensures r.status == 200 <==> r.body.Reply?
    ensures r.body.Reply? ==> r.body.message != []
    ensures upstream.UpstreamFailed? <==> r.status == 500
  {
    match upstream
    case UpstreamFailed(reason) => Response(500, ErrorBody(ServerError, Some(reason)))
    case UpstreamNotOk(_) =>
      var reply := CannedReply(message, model, pick);
      assert |reply| >= |ModelInfo(model)| > 0;
      Response(200, Reply(reply))
    case UpstreamOk(content) => Response(200, Reply(PickReply(content)))
  }

  /** Without a session the answer is 401, whatever the body, and nothing is sent upstream. */
  lemma UnauthenticatedRejected(body: Result<RequestBody, string>, upstream: Upstream, pick: nat)
    requires pick < 4
    ensures Post(false, body, upstream, pick) == Handled(Response(401, ErrorBody(AuthError, None)), None)
  {
  }

  /** A missing or whitespace-only message is a 400 and nothing is sent upstream. */
  lemma BlankMessageRejected(b: RequestBody, upstream: Upstream, pick: nat)
    requires pick < 4
    requires b.message.None? || IsBlank(b.message.value)
    ensures Post(true, Success(b), upstream, pick) == Handled(Response(400, ErrorBody(BlankError, None)), None)
  {
  }

  /**
   * Once the body is valid exactly one upstream request is made: to the
   * requested model or `gpt-4o`, with the preamble, the history in order and
   * the new message last.
   */
  lemma UpstreamRequestShape(b: RequestBody, upstream: Upstream, pick: nat)
    requires pick < 4
    requires b.message.Some? && !IsBlank(b.message.value) && b.history.Some?
    ensures var h := Post(true, Success(b), upstream, pick);
      var history := b.history.value;
      && h.call.Some?
      && h.call.value.model == (if b.model.None? then DefaultModel else b.model.value)
      && |h.call.value.messages| == |history| + 2
      && h.call.value.messages[0] == Turn("system", SystemPrompt(h.call.value.model))
      && (forall i :: 0 <= i < |history| ==>
            h.call.value.messages[i + 1] == Turn(RoleName(history[i].role), history[i].content))
      && h.call.value.messages[|history| + 1] == Turn("user", b.message.value)
  {
    var model := if b.model.Some? then b.model.value else DefaultModel;
    var messages := BuildMessages(model, b.history.value, b.message.value);
    assert Trim(b.message.value) != [];
    assert Post(true, Success(b), upstream, pick).call == Some(UpstreamRequest(model, messages, Temperature, MaxTokens, false));
  }

  /**
   * What reaches the user once the request was sent: the first choice's
   * content (or the default text) on OK, the canned reply as a normal
   * message on any non-OK status, a 500 when the call threw.
   */
  lemma ReplySelection(b: RequestBody, upstream: Upstream, pick: nat)
    requires pick < 4
    requires b.message.Some? && !IsBlank(b.message.value) && b.history.Some?
    ensures var h := Post(true, Success(b), upstream, pick);
      var model := if b.model.None? then DefaultModel else b.model.value;
      && (upstream.UpstreamOk? && upstream.content.Some? && upstream.content.value != [] ==>
            h.response == Response(200, Reply(upstream.content.value)))
      && (upstream.UpstreamOk? && (upstream.content.None? || upstream.content.value == []) ==>
            h.response == Response(200, Reply(EmptyReply)))
      && (upstream.UpstreamNotOk? ==> h.response == Response(200, Reply(CannedReply(b.message.value, model, pick))))
      && (upstream.UpstreamFailed? ==> h.response.status == 500)
  {
  }

  /**
   * Every outcome is one of 200, 400, 401 or 500; a 200 always carries a
   * non-empty message and only happens after the upstream call.
   */
  lemma ResponsesAreWellFormed(hasSession: bool, body: Result<RequestBody, string>, upstream: Upstream, pick: nat)
    requires pick < 4
    ensures var h := Post(hasSession, body, upstream, pick);
      && h.response.status in {200, 400, 401, 500}
      && (h.response.status == 200 <==> h.response.body.Reply?)
      && (h.response.body.Reply? ==> h.response.body.message != [] && h.call.Some?)
  {
  }

  // ---------------------------------------------------------------- canned responder

  /** The line every canned reply starts with. */
  function ModelInfo(model: string): string
  {
    "**Şu anda: " + model + " modelini simüle ediyorum** 🤖\n\n"
  }

  datatype Topic = Languages | Drawing | Code | Greeting | Wellbeing | Help | General(index: nat)

  /** The keyword lists, in the order the responder tries them. */
  const LanguageWords: seq<string> := ["programlama dili", "sevdiğin dil"]
  const DrawingWords: seq<string> := ["resim", "çiz", "görsel"]
  const CodeWords: seq<string> := ["kod", "react", "javascript", "python", "component"]
  const GreetingWords: seq<string> := ["merhaba", "selam", "hey", "hi"]
  const WellbeingWords: seq<string> := ["nasılsın", "naber", "how are you"]
  const HelpWords: seq<string> := ["yardım", "help", "neler yapabilirsin"]

  /** `words.some(w => lower.includes(w))`, tried left to right. */
  predicate AnyKeyword(lower: string, words: seq<string>)
  {
    words != [] && (Contains(lower, words[0]) || AnyKeyword(lower, words[1..]))
  }

  /** A group matches exactly when one of its keywords occurs in the message. */
  lemma {:induction false} AnyKeywordMeansSome(lower: string, words: seq<string>)
    ensures AnyKeyword(lower, words) <==> exists j :: 0 <= j < |words| && Contains(lower, words[j])
  {
    if words != [] {
      AnyKeywordMeansSome(lower, words[1..]);
      assert forall j :: 1 <= j < |words| ==> words[1..][j - 1] == words[j];
      if Contains(lower, words[0]) {
        assert 0 < |words| && Contains(lower, words[0]);
      } else if AnyKeyword(lower, words[1..]) {
        var j :| 0 <= j < |words[1..]| && Contains(lower, words[1..][j]);
        assert Contains(lower, words[j + 1]);
      }
    }
  }

  /** The topic of a lowered message: the first keyword group that matches, or generic template `pick`. */
  function TopicOf(lower: string, pick: nat): (t: Topic)
    ensures t.General? ==> t == General(pick)
    ensures t.General? <==>
      && !AnyKeyword(lower, LanguageWords) && !AnyKeyword(lower, DrawingWords) && !AnyKeyword(lower, CodeWords)
      && !AnyKeyword(lower, GreetingWords) && !AnyKeyword(lower, WellbeingWords) && !AnyKeyword(lower, HelpWords)
  {
    if AnyKeyword(lower, LanguageWords) then Languages
    else if AnyKeyword(lower, DrawingWords) then Drawing
    else if AnyKeyword(lower, CodeWords) then Code
    else if AnyKeyword(lower, GreetingWords) then Greeting
    else if AnyKeyword(lower, WellbeingWords) then Wellbeing
    else if AnyKeyword(lower, HelpWords) then Help
    else General(pick)
  }

  /**
   * The keyword tests are tried in order: the topic is that of the first
   * group with a keyword in the message, and a generic reply only when no
   * group has one.
   */
  lemma TopicFollowsKeywordOrder(lower: string, pick: nat)
    ensures var t, any := TopicOf(lower, pick), (ws: seq<string>) => AnyKeyword(lower, ws);
      && (t == Languages <==> any(LanguageWords))
      && (t == Drawing <==> !any(LanguageWords) && any(DrawingWords))
      && (t == Code <==> !any(LanguageWords) && !any(DrawingWords) && any(CodeWords))
      && (t == Greeting <==> !any(LanguageWords) && !any(DrawingWords) && !any(CodeWords) && any(GreetingWords))
      && (t == Wellbeing <==>
            !any(LanguageWords) && !any(DrawingWords) && !any(CodeWords) && !any(GreetingWords) && any(WellbeingWords))
      && (t == Help <==>
            !any(LanguageWords) && !any(DrawingWords) && !any(CodeWords) && !any(GreetingWords) && !any(WellbeingWords)
            && any(HelpWords))
      && (t == General(pick) <==>
            !any(LanguageWords) && !any(DrawingWords) && !any(CodeWords) && !any(GreetingWords) && !any(WellbeingWords)
            && !any(HelpWords))
  {
  }

  /** The fixed parts of the canned texts, around the interpolated model name and message. */
  const LanguagesText: string := "💻 Vay be, programlama dilleri konusunda konuşmayı çok seviyorum! \n\n**Benim favorilerim:**\n\n🔥 **TypeScript** - JavaScript'in süper güçlü versiyonu! Type safety + modern syntax = 🤌\n\n⚡ **Python** - Basit, güçlü, her şeyi yapabilir. AI'dan web'e kadar!\n\n🚀 **Rust** - Memory safety + performance = gelecek bu dilde!\n\n💎 **JavaScript** - Web'in kralı, her yerde çalışır!\n\nSen hangi dilleri kullanıyorsun? Yeni bir dil öğrenmek mi istiyorsun? 🤓"
  const DrawingHead: string := "🎨 Resim çizmeyi çok seviyorum! \n\nNe çizmemi istiyorsun?\n- 🌅 Manzara (gün doğumu, orman, deniz)\n- 🤖 Sci-fi (robot, uzay, cyberpunk)\n- 🎭 Portrait (anime, realistic, cartoon)\n- 🏛️ Architecture (modern, historical)\n\nGerçek uygulamada "
  const DrawingTail: string := " ile photorealistic resimler üretebilirim! GitHub Models API ile unlimited! 🚀"
  const CodeHead: string := "💻 Kod yazmaya bayılıyorum! Hangi dilde ne yapmak istiyorsun?\n\n**Popüler istekler:**\n- ⚛️ React component\n- 🐍 Python script  \n- 🔧 JavaScript function\n- 🎯 Algorithm solve\n\nÖrnek: Güzel bir loading spinner ister misin?\n\n```jsx\nconst LoadingSpinner = () => (\n  <div className=\"flex items-center justify-center p-8\">\n    <div className=\"animate-spin rounded-full h-12 w-12 \n                    border-t-2 border-b-2 border-blue-500\"></div>\n    <span className=\"ml-3 text-gray-600\">Yükleniyor...</span>\n  </div>\n)\n```\n\n"
  const GreetingHead: string := "Hey! 👋 Nasılsın knkm? \n\nBen senin unlimited AI asistanınım! GitHub Models API ile **"
  const GreetingTail: string := "** kullanıyoruz:\n\n🔥 **Ne yapabilirim:**\n- 💬 Sohbet ederim (her konuda!)\n- 💻 Kod yazarım (her dilde!)  \n- 🎨 Resim çizerim\n- 🧠 Problem çözerim\n- 📚 Öğretirim\n\nBugün ne yapmak istiyorsun? Kod mu yazacağız, resim mi çizeceğiz, yoksa sohbet mi edeceğiz? 🚀"
  const WellbeingTail: string := "** olarak çalışmak çok zevkli! \n\nYeni özelliklerimle heyecanlıyım:\n- 🚀 Unlimited chat (premium limits yok!)\n- 💻 Advanced code generation\n- 🎨 Image creation\n- 🧠 Deep analysis\n\nSen nasılsın? Bugün hangi projelerin var? Kod yazıyor musun, yoksa yeni bir şeyler öğreniyor musun? 😊"
  const HelpTail: string := " Süper Güçlerim:**\n\n💬 **Sohbet:**\n- Her konuda konuşurum\n- Sorularını yanıtlarım\n- Z kuşağı tarzında samimi chat\n\n💻 **Kod Yazma:**\n- React, Python, JS, TS, Rust...\n- Component'ler, function'lar, algorithm'lar\n- Bug fixing ve code review\n\n🎨 **Resim Çizme:**\n- AI ile görsel üretimi\n- Her tarzda (realistic, anime, abstract)\n- Logo, banner, illustration\n\n🧠 **Problem Çözme:**\n- Math, logic, programming challenges\n- Step-by-step açıklamalar\n- Best practices önerileri\n\nNe yapmak istiyorsun knkm? 🔥"
  const GenericTail0: string := "** olarak ne düşünmemi istiyorsun? Daha detaylı anlat, beraber konuşalım! 💬"
  const GenericTail1: string := "** ile bu konuda sana yardımcı olabilirim. Hangi açıdan yaklaşmamı istiyorsun? 💡"
  const GenericTail2: string := "** olarak bu konuda epey şey söyleyebilirim! Neyi merak ediyorsun özellikle? 🤓"
  const GenericTail3: string := "** ile bu konuda konuşmayı seviyorum. Hangi detayları öğrenmek istiyorsun? 🔥"

  /** The text that follows the model line. */
  function TopicText(topic: Topic, message: string, model: string): string
    requires topic.General? ==> topic.index < 4
  {
    match topic
    case Languages =>
      LanguagesText
    case Drawing =>
      DrawingHead + model + DrawingTail
    case Code =>
      CodeHead + model + " ile hangi konuda kod yazmamı istiyorsun? 🚀"
    case Greeting =>
      GreetingHead + model + GreetingTail
    case Wellbeing =>
      "Süper! 🔥 GitHub Models API ile **" + model + WellbeingTail
    case Help =>
      "🚀 **GitHub Models API " + model + HelpTail
    case General(i) =>
      match i
      case 0 =>
        "İlginç! 🤔 \"" + message + "\" konusunda **" + model + GenericTail0
      case 1 =>
        "Harika soru! 🚀 **" + model + GenericTail1
      case 2 =>
        "Vay be! 😎 \"" + message + "\" - **" + model + GenericTail2
      case _ =>
        "Süper! 💪 **" + model + GenericTail3
  }

  /** `generateFallbackResponse`: the model line, then the text for the message's topic. */
  function CannedReply(message: string, model: string, pick: nat): (r: string)
    requires pick < 4
    ensures StartsWith(r, ModelInfo(model))
    ensures r[|ModelInfo(model)|..] == TopicText(TopicOf(Lower(message), pick), message, model)
  {
    var info := ModelInfo(model);
    var text := TopicText(TopicOf(Lower(message), pick), message, model);
    ConcatParts(info, text);
    info + text
  }
}
