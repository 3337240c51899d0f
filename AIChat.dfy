/** The scripted shopping assistant (components/AIChat.tsx): an ordered keyword rule table
    over the lowercased message, each rule picking a few catalog products to recommend, and
    the message list that sending a non-blank message extends. */
module AIChat {
  import opened Types
  import opened Text
  import Seqs

  datatype Topic = Audio | Fitness | Eco | Gift | Other

  /** The keywords of each rule, in the order the rules are tried. */
  const Rules: seq<(Topic, seq<string>)> := [
    (Audio, ["headphone", "audio"]),
    (Fitness, ["fitness", "watch", "health"]),
    (Eco, ["sustainable", "eco", "environment"]),
    (Gift, ["gift", "present"])
  ]

  /** Some keyword occurs in `s`. */
  predicate MentionsAny(s: string, words: seq<string>)
  {
    words != [] && (Contains(s, words[0]) || MentionsAny(s, words[1..]))
  }

  /** The if-chain of `generateAIResponse`, on `userMessage.toLowerCase()`. */
  function TopicOf(message: string): Topic
  {
    var m := Lower(message);
    if Contains(m, "headphone") || Contains(m, "audio") then Audio
    else if Contains(m, "fitness") || Contains(m, "watch") || Contains(m, "health") then Fitness
    else if Contains(m, "sustainable") || Contains(m, "eco") || Contains(m, "environment") then Eco
    else if Contains(m, "gift") || Contains(m, "present") then Gift
    else Other
  }

  /** The topic of the first rule with a keyword in `s`, or `Other`. */
  function FirstMatch(rules: seq<(Topic, seq<string>)>, s: string): Topic
  {
    if rules == [] then Other
    else if MentionsAny(s, rules[0].1) then rules[0].0
    else FirstMatch(rules[1..], s)
  }

  lemma MentionsTwo(s: string, a: string, b: string)
    ensures MentionsAny(s, [a, b]) == (Contains(s, a) || Contains(s, b))
  {
    assert [a, b][1..] == [b] && [b][1..] == [];
    assert !MentionsAny(s, []);
    assert MentionsAny(s, [b]) == Contains(s, b);
  }

  lemma MentionsThree(s: string, a: string, b: string, c: string)
    ensures MentionsAny(s, [a, b, c]) == (Contains(s, a) || Contains(s, b) || Contains(s, c))
  {
    assert [a, b, c][1..] == [b, c];
    MentionsTwo(s, b, c);
  }

  /** The if-chain is the rule table read top to bottom. */
  lemma TopicIsFirstMatch(message: string)
    ensures TopicOf(message) == FirstMatch(Rules, Lower(message))
  {
    var m := Lower(message);
    MentionsTwo(m, "headphone", "audio");
    MentionsThree(m, "fitness", "watch", "health");
    MentionsThree(m, "sustainable", "eco", "environment");
    MentionsTwo(m, "gift", "present");
    var r1 := Rules[1..];
    var r2 := r1[1..];
    var r3 := r2[1..];
    assert r1[0] == (Fitness, ["fitness", "watch", "health"]);
    assert r2[0] == (Eco, ["sustainable", "eco", "environment"]);
    assert r3[0] == (Gift, ["gift", "present"]);
    assert r3[1..] == [];
    assert FirstMatch(r3[1..], m) == Other;
    assert FirstMatch(r3, m) == if MentionsAny(m, r3[0].1) then Gift else Other;
    assert FirstMatch(r2, m) == if MentionsAny(m, r2[0].1) then Eco else FirstMatch(r3, m);
    assert FirstMatch(r1, m) == if MentionsAny(m, r1[0].1) then Fitness else FirstMatch(r2, m);
  }

  /** First match wins: a rule decides exactly when it matches and no earlier rule does. */
  lemma {:induction false} FirstMatchIsEarliest(rules: seq<(Topic, seq<string>)>, s: string, k: int)
    requires 0 <= k < |rules| && MentionsAny(s, rules[k].1)
    requires forall j :: 0 <= j < k ==> !MentionsAny(s, rules[j].1)
    ensures FirstMatch(rules, s) == rules[k].0
  {
    if k > 0 {
      FirstMatchIsEarliest(rules[1..], s, k - 1);
    }
  }

  /** The fallback answers exactly when no rule of the table has a keyword in `s`. */
  lemma {:induction false} OtherIffNoMatch(rules: seq<(Topic, seq<string>)>, s: string)
    requires forall j :: 0 <= j < |rules| ==> rules[j].0 != Other
    ensures FirstMatch(rules, s) == Other <==> forall j :: 0 <= j < |rules| ==> !MentionsAny(s, rules[j].1)
  {
    if rules != [] {
      var tail := rules[1..];
      assert forall j :: 0 <= j < |tail| ==> tail[j] == rules[j + 1];
      OtherIffNoMatch(tail, s);
      if !MentionsAny(s, rules[0].1) {
        assert (forall j :: 0 <= j < |rules| ==> !MentionsAny(s, rules[j].1))
          <==> (forall j :: 0 <= j < |tail| ==> !MentionsAny(s, tail[j].1)) by {
          forall j | 0 < j < |rules| ensures rules[j] == tail[j - 1] { }
        }
      }
    }
  }

  /** The if-chain falls through to the fallback exactly when no rule has a keyword in the
      lowercased message. */
  lemma FallbackIffNoMatch(message: string)
    ensures TopicOf(message) == Other <==> forall j :: 0 <= j < |Rules| ==> !MentionsAny(Lower(message), Rules[j].1)
  {
    TopicIsFirstMatch(message);
    assert forall j :: 0 <= j < |Rules| ==> Rules[j].0 != Other;
    OtherIffNoMatch(Rules, Lower(message));
  }

  /** `p.category === 'Electronics' && (p.name.toLowerCase().includes('headphone') || p.tags.includes('wireless'))`. */
  predicate IsAudio(p: Product)
  {
    p.category == "Electronics" && (Contains(Lower(p.name), "headphone") || "wireless" in p.tags)
  }

  predicate IsFitness(p: Product)
  {
    Contains(Lower(p.name), "fitness") || "fitness" in p.tags
  }

  predicate IsOrganic(p: Product)
  {
    "organic" in p.tags
  }

  function AudioTest(): Product -> bool { (p: Product) => IsAudio(p) }
  function FitnessTest(): Product -> bool { (p: Product) => IsFitness(p) }
  function OrganicTest(): Product -> bool { (p: Product) => IsOrganic(p) }

  function ToRecommendation(reason: string, confidence: real): Product -> Recommendation
  {
    (p: Product) => Recommendation(p.id, reason, confidence)
  }

  /** `.map(p => ({ productId: p.id, reason, confidence }))`. */
  function Recommend(ps: seq<Product>, reason: string, confidence: real): (r: seq<Recommendation>)
    ensures |r| == |ps|
    ensures forall i :: 0 <= i < |ps| ==> r[i] == Recommendation(ps[i].id, reason, confidence)
  {
    Seqs.Map(ToRecommendation(reason, confidence), ps)
  }

  /** Which answer text the assistant gives: one per rule, and the four fallback answers. */
  datatype Reply = AudioReply | FitnessReply | EcoReply | GiftReply | FallbackReply(index: int)

  /** The answer of each rule; `pick` chooses among the four fallback answers. */
  function ReplyFor(topic: Topic, pick: int): (r: Reply)
    requires 0 <= pick < 4
    ensures r.FallbackReply? <==> topic == Other
    ensures r.FallbackReply? ==> r.index == pick
  {
    match topic
    case Audio => AudioReply
    case Fitness => FitnessReply
    case Eco => EcoReply
    case Gift => GiftReply
    case Other => FallbackReply(pick)
  }

  /** Each rule answers with its own reply, and no other rule gives it. */
  lemma ReplyOfEachRule(topic: Topic, pick: int)
    requires 0 <= pick < 4
    ensures ReplyFor(topic, pick) == AudioReply <==> topic == Audio
    ensures ReplyFor(topic, pick) == FitnessReply <==> topic == Fitness
    ensures ReplyFor(topic, pick) == EcoReply <==> topic == Eco
    ensures ReplyFor(topic, pick) == GiftReply <==> topic == Gift
  {
  }

  /** The text of each answer, as the chat window shows it. */
  function ReplyString(r: Reply): string
  {
    match r
    case AudioReply => "I found some excellent headphones for you! Based on your interest in audio products, I'd recommend checking out our premium wireless headphones. They feature noise cancellation and exceptional sound quality."
    case FitnessReply => "For fitness tracking, I highly recommend our smart fitness watch. It includes heart rate monitoring, GPS tracking, and comprehensive health analytics to help you reach your goals."
    case EcoReply => "I love that you're thinking about sustainability! All our products include carbon offset shipping options, and we donate a portion of proceeds to environmental causes. Our organic tea set is particularly eco-friendly with sustainable packaging."
    case GiftReply => "Looking for the perfect gift? I'd recommend our premium wireless headphones or the minimalist backpack - both are popular gift choices with excellent reviews and beautiful packaging."
    case FallbackReply(k) =>
      if k == 0 then "That's a great question! Let me help you find exactly what you're looking for. Could you tell me more about your preferences?"
      else if k == 1 then "I'd be happy to help! Based on our current inventory, I can recommend some excellent options. What's your budget range?"
      else if k == 2 then "Interesting! I can suggest some products that might be perfect for you. Are you looking for something specific or just browsing?"
      else "I understand what you're looking for. Let me show you some of our top-rated products that match your needs."
  }

  /** The reason and confidence each rule attaches to its recommendations. */
  function Reason(topic: Topic): string
  {
    match topic
    case Audio => "High-quality audio with premium features"
    case Fitness => "Perfect for fitness tracking and health monitoring"
    case Eco => "Eco-friendly and sustainably sourced"
    case Gift => "Popular gift choice with premium quality"
    case Other => ""
  }

  function Confidence(topic: Topic): real
  {
    match topic
    case Audio => 0.95
    case Fitness => 0.92
    case Eco => 0.88
    case Gift => 0.85
    case Other => 0.0
  }

  /** What `generateAIResponse` returns, its text named by the `Reply` it shows; the fallback
      has no recommendations key. */
  datatype Response = Response(reply: Reply, recommendations: Option<seq<Recommendation>>)

  /** The products each rule recommends, before they are turned into recommendations. */
  function Picked(products: seq<Product>, topic: Topic): seq<Product>
  {
    match topic
    case Audio => Seqs.Take(2, Seqs.Filter(AudioTest(), products))
    case Fitness => Seqs.Take(1, Seqs.Filter(FitnessTest(), products))
    case Eco => Seqs.Take(1, Seqs.Filter(OrganicTest(), products))
    case Gift => Seqs.Take(2, products)
    case Other => []
  }

  /** The answer of the rule for `topic`: its text, and its recommendations unless it is the
      fallback, which has none. */
  function Answer(products: seq<Product>, topic: Topic, pick: int): Response
    requires 0 <= pick < 4
  {
    Response(ReplyFor(topic, pick),
      if topic == Other then None
      else Some(Recommend(Picked(products, topic), Reason(topic), Confidence(topic))))
  }

  /** `generateAIResponse(message)`; `pick` stands for `Math.floor(Math.random() * 4)`. */
  function GenerateResponse(products: seq<Product>, message: string, pick: int): Response
    requires 0 <= pick < 4
  {
    Answer(products, TopicOf(message), pick)
  }

  function Limit(topic: Topic): nat
  {
    match topic
    case Audio => 2
    case Fitness => 1
    case Eco => 1
    case Gift => 2
    case Other => 0
  }

  /** The test a rule's picks pass; every catalog product passes the gift rule's. */
  predicate Qualifies(p: Product, topic: Topic)
  {
    match topic
    case Audio => IsAudio(p)
    case Fitness => IsFitness(p)
    case Eco => IsOrganic(p)
    case Gift => true
    case Other => false
  }

  function Test(topic: Topic): Product -> bool { (p: Product) => Qualifies(p, topic) }

  /** Each rule picks the first catalog products passing its test, up to its limit: as many as
      the limit allows or as qualify, whichever is fewer, in catalog order. */
  lemma PickedSpec(products: seq<Product>, topic: Topic)
    ensures var qualifying := Seqs.Filter(Test(topic), products);
      && |Picked(products, topic)| == (if Limit(topic) <= |qualifying| then Limit(topic) else |qualifying|)
      && Picked(products, topic) <= qualifying
    ensures forall i :: 0 <= i < |Picked(products, topic)| ==>
      Picked(products, topic)[i] in products && Qualifies(Picked(products, topic)[i], topic)
    ensures Seqs.IsSubseq(Picked(products, topic), products)
  {
    var ps := Picked(products, topic);
    var qualifying := Seqs.Filter(Test(topic), products);
    Seqs.FilterIsSubseq(Test(topic), products);
    match topic {
      case Audio =>
        Seqs.FilterCongruence(AudioTest(), Test(topic), products);
      case Fitness =>
        Seqs.FilterCongruence(FitnessTest(), Test(topic), products);
      case Eco =>
        Seqs.FilterCongruence(OrganicTest(), Test(topic), products);
      case Gift =>
        Seqs.FilterAll(Test(topic), products);
      case Other =>
        Seqs.FilterNone(Test(topic), products);
    }
    assert ps == Seqs.Take(Limit(topic), qualifying);
    Seqs.SubseqPrefix(qualifying, products, |ps|);
    assert ps == qualifying[..|ps|];
  }

  /** The gift rule recommends the first two catalog products, or all when there are fewer. */
  lemma GiftPicksFirstTwo(products: seq<Product>)
    ensures Picked(products, Gift) == if |products| <= 2 then products else products[..2]
  {
  }

  function IdOf(): Product -> string { (p: Product) => p.id }

  function RecId(): Recommendation -> string { (r: Recommendation) => r.productId }

  /** The recommendations made from a rule's picks carry the ids of the first catalog products
      passing the rule's test, up to the rule's limit, in catalog order; each id is that of a
      catalog product passing the test, and all carry the rule's reason and confidence. */
  lemma RecommendSpec(products: seq<Product>, topic: Topic, reason: string, confidence: real)
    ensures var recs := Recommend(Picked(products, topic), reason, confidence);
      && |recs| <= Limit(topic)
      && Seqs.Map(RecId(), recs) == Seqs.Map(IdOf(), Seqs.Take(Limit(topic), Seqs.Filter(Test(topic), products)))
      && Seqs.IsSubseq(Seqs.Map(RecId(), recs), Seqs.Map(IdOf(), products))
      && (forall i :: 0 <= i < |recs| ==> recs[i].reason == reason && recs[i].confidence == confidence)
      && forall i :: 0 <= i < |recs| ==>
           exists j :: 0 <= j < |products| && products[j].id == recs[i].productId && Qualifies(products[j], topic)
  {
    var ps := Picked(products, topic);
    var recs := Recommend(ps, reason, confidence);
    PickedSpec(products, topic);
    assert ps == Seqs.Take(Limit(topic), Seqs.Filter(Test(topic), products));
    Seqs.SubseqMap(IdOf(), ps, products);
    assert Seqs.Map(RecId(), recs) == Seqs.Map(IdOf(), ps);
    forall i | 0 <= i < |recs|
      ensures exists j :: 0 <= j < |products| && products[j].id == recs[i].productId && Qualifies(products[j], topic)
    {
      var j :| 0 <= j < |products| && products[j] == ps[i];
      assert products[j].id == recs[i].productId;
    }
  }

  /** `recs` name the first catalog products passing the rule's test, up to its limit, in
      catalog order, each with the rule's reason and confidence. */
  predicate RecommendsFirstQualifying(recs: seq<Recommendation>, products: seq<Product>, topic: Topic)
  {
    && |recs| <= Limit(topic)
    && Seqs.Map(RecId(), recs) == Seqs.Map(IdOf(), Seqs.Take(Limit(topic), Seqs.Filter(Test(topic), products)))
    && forall i :: 0 <= i < |recs| ==>
         && recs[i].reason == Reason(topic) && recs[i].confidence == Confidence(topic)
         && exists j :: 0 <= j < |products| && products[j].id == recs[i].productId && Qualifies(products[j], topic)
  }

  /** A rule's recommendations, with its reason and confidence, are its first qualifying
      products, as `RecommendsFirstQualifying` describes. */
  lemma RuleRecommendations(products: seq<Product>, topic: Topic)
    ensures RecommendsFirstQualifying(Recommend(Picked(products, topic), Reason(topic), Confidence(topic)), products, topic)
  {
    RecommendSpec(products, topic, Reason(topic), Confidence(topic));
  }

  /** A rule's answer has recommendations unless it is the fallback, and they are the rule's
      first qualifying products, as `RecommendsFirstQualifying` describes. */
  lemma AnswerSpec(products: seq<Product>, topic: Topic, pick: int)
    requires 0 <= pick < 4
    ensures Answer(products, topic, pick).recommendations.None? <==> topic == Other
    ensures Answer(products, topic, pick).recommendations.Some? ==>
      RecommendsFirstQualifying(Answer(products, topic, pick).recommendations.value, products, topic)
  {
    if topic == Other {
      assert Answer(products, topic, pick).recommendations == None;
    } else {
      RuleRecommendations(products, topic);
      assert Answer(products, topic, pick).recommendations
        == Some(Recommend(Picked(products, topic), Reason(topic), Confidence(topic)));
    }
  }

  /** The answer's text is that of the first rule of the table with a keyword in the
      lowercased message, or the picked fallback text when none has. */
  lemma ResponseText(products: seq<Product>, message: string, pick: int)
    requires 0 <= pick < 4
    ensures GenerateResponse(products, message, pick).reply == ReplyFor(FirstMatch(Rules, Lower(message)), pick)
  {
    TopicIsFirstMatch(message);
  }

  /** The answer has recommendations exactly when some rule of the table has a keyword in the
      lowercased message, and then they are the first matching rule's, as
      `RecommendsFirstQualifying` describes. */
  lemma ResponseRecommendations(products: seq<Product>, message: string, pick: int)
    requires 0 <= pick < 4
    ensures var r := GenerateResponse(products, message, pick);
      var topic := FirstMatch(Rules, Lower(message));
      && (r.recommendations.None? <==> forall j :: 0 <= j < |Rules| ==> !MentionsAny(Lower(message), Rules[j].1))
      && (r.recommendations.Some? ==> RecommendsFirstQualifying(r.recommendations.value, products, topic))
  {
    TopicIsFirstMatch(message);
    FallbackIffNoMatch(message);
    AnswerSpec(products, TopicOf(message), pick);
  }

  /** The assistant's line showing `response`, stamped `repliedAt`. */
  function BotMessage(response: Response, id: string, repliedAt: string): ChatMessage
  {
    ChatMessage(id, ReplyString(response.reply), true, repliedAt, response.recommendations)
  }

  const GreetingText: string := "Hi! I'm your AI shopping assistant. I can help you find products, answer questions, and provide personalized recommendations. What are you looking for today?"

  /** The chat window's state. */
  class ChatState {
    var messages: seq<ChatMessage>
    var inputText: string
    var isTyping: bool
    var isOpen: bool

    /** Closed, with the greeting; `now` stands for the greeting's `new Date()`. */
    constructor (now: string)
      ensures messages == [ChatMessage("1", GreetingText, true, now, None)]
      ensures inputText == "" && !isTyping && !isOpen
    {
      messages := [ChatMessage("1", GreetingText, true, now, None)];
      inputText := "";
      isTyping := false;
      isOpen := false;
    }

    method SetOpen(open: bool)
      modifies this`isOpen
      ensures isOpen == open
    {
      isOpen := open;
    }

    method SetInputText(text: string)
      modifies this`inputText
      ensures inputText == text
    {
      inputText := text;
    }

    /** `handleSendMessage`, with the thinking delay collapsed. A blank input changes nothing;
        otherwise the user's line and the assistant's answer to it are appended and the input
        is cleared. `lineId`/`botId` stand for the two `Date.now()` ids, `sentAt` for the user
        line's `new Date()` and `repliedAt` for the bot line's, taken after the delay. */
    method SendMessage(products: seq<Product>, lineId: string, botId: string, sentAt: string, repliedAt: string, pick: int)
      requires 0 <= pick < 4
      modifies this`messages, this`inputText, this`isTyping
      ensures Trim(old(inputText)) == "" ==>
        messages == old(messages) && inputText == old(inputText) && isTyping == old(isTyping)
      ensures Trim(old(inputText)) != "" ==>
        && messages == old(messages) + [ChatMessage(lineId, old(inputText), false, sentAt, None),
                                        BotMessage(GenerateResponse(products, old(inputText), pick), botId, repliedAt)]
        && inputText == "" && !isTyping
    {
      if Trim(inputText) == "" {
        return;
      }
      var sent := inputText;
      var userLine := ChatMessage(lineId, sent, false, sentAt, None);
      inputText := "";
      isTyping := true;
      var botLine := BotMessage(GenerateResponse(products, sent, pick), botId, repliedAt);
      messages := messages + [userLine, botLine];
      isTyping := false;
    }
  }
}
