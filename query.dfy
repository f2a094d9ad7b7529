/** The reply that handleRequest in internal/dns/server.go builds for a
    query message: one A record per A question whose name resolves, the
    Authoritative Answer bit, and the response code. Header fields follow
    section 4.1.1 of RFC 1035, the A record section 3.4.1 of RFC 1035, and
    AAAA questions (section 2.1 of RFC 3596) are never answered. */
module Query {
  import opened Results
  import opened Ipv4
  import opened Resolver

  /** QTYPE and CLASS codes (section 3.2.2 and 3.2.4 of RFC 1035,
      section 2.1 of RFC 3596). */
  const TypeA: nat := 1
  const TypeAAAA: nat := 28
  const ClassINET: nat := 1

  /** RCODE values of section 4.1.1 of RFC 1035. */
  const RcodeSuccess: nat := 0
  const RcodeNameError: nat := 3

  /** Every A record the server hands out lives five seconds. */
  const AnswerTtl: nat := 5

  datatype Question = Question(name: string, qtype: nat)

  datatype Request = Request(id: nat, questions: seq<Question>)

  datatype ARecord = ARecord(name: string, rrtype: nat, rrclass: nat, ttl: nat, ip: IPv4)

  datatype Reply = Reply(id: nat, answers: seq<ARecord>, authoritative: bool, rcode: nat)

  /** The record one question contributes: an A record carrying the
      question's own name for an A question whose name resolves; nothing
      for an unresolved name, an AAAA question or any other type. */
  function AnswerFor(t: Tables, q: Question): (r: Option<ARecord>)
    ensures r.Some? <==> q.qtype == TypeA && Resolve(t, q.name).Some?
    ensures r.Some? ==> r.value.name == q.name && r.value.ip == Resolve(t, q.name).value
    ensures r.Some? ==> r.value.rrtype == TypeA && r.value.rrclass == ClassINET && r.value.ttl == AnswerTtl
  {
    if q.qtype != TypeA then None
    else
      match Resolve(t, q.name)
      case None => None
      case Some(ip) => Some(ARecord(q.name, TypeA, ClassINET, AnswerTtl, ip))
  }

  /** The answer section: the questions' records, in question order. */
  function Answers(t: Tables, qs: seq<Question>): (r: seq<ARecord>)
    ensures |r| <= |qs|
  {
    if qs == [] then []
    else
      var rest := Answers(t, qs[..|qs| - 1]);
      match AnswerFor(t, qs[|qs| - 1])
      case None => rest
      case Some(a) => rest + [a]
  }

  /** Some question of qs contributes the record a. */
  ghost predicate Contributes(t: Tables, qs: seq<Question>, a: ARecord) {
    exists i :: 0 <= i < |qs| && AnswerFor(t, qs[i]) == Some(a)
  }

  /** Every record in the answer section answers one of the questions. */
  lemma {:induction false} AnswersSound(t: Tables, qs: seq<Question>)
    ensures forall a :: a in Answers(t, qs) ==> Contributes(t, qs, a)
  {
    if qs != [] {
      var init := qs[..|qs| - 1];
      AnswersSound(t, init);
      forall a | a in Answers(t, qs)
        ensures Contributes(t, qs, a)
      {
        if a in Answers(t, init) {
          var i :| 0 <= i < |init| && AnswerFor(t, init[i]) == Some(a);
          assert qs[i] == init[i];
        } else {
          assert AnswerFor(t, qs[|qs| - 1]) == Some(a);
        }
      }
    }
  }

  /** Every question that has a record contributes it to the answer section. */
  lemma {:induction false} AnswersComplete(t: Tables, qs: seq<Question>)
    ensures forall i :: 0 <= i < |qs| && AnswerFor(t, qs[i]).Some? ==> AnswerFor(t, qs[i]).value in Answers(t, qs)
  {
    if qs != [] {
      var init := qs[..|qs| - 1];
      AnswersComplete(t, init);
      forall i | 0 <= i < |qs| && AnswerFor(t, qs[i]).Some?
        ensures AnswerFor(t, qs[i]).value in Answers(t, qs)
      {
        if i < |qs| - 1 {
          assert qs[i] == init[i];
        }
      }
    }
  }

  /** The answer section is empty exactly when no question has a record. */
  lemma AnswersEmptyIff(t: Tables, qs: seq<Question>)
    ensures Answers(t, qs) == [] <==> forall i :: 0 <= i < |qs| ==> AnswerFor(t, qs[i]).None?
  {
    AnswersSound(t, qs);
    AnswersComplete(t, qs);
    if Answers(t, qs) != [] {
      assert Contributes(t, qs, Answers(t, qs)[0]);
    }
  }

  /** hasQueryType: some question has type qtype. */
  function HasQueryType(qs: seq<Question>, qtype: nat): (r: bool)
    ensures r <==> exists i :: 0 <= i < |qs| && qs[i].qtype == qtype
  {
    if qs == [] then false
    else if qs[0].qtype == qtype then true
    else
      var rest := HasQueryType(qs[1..], qtype);
      assert forall i :: 1 <= i < |qs| ==> qs[i] == qs[1..][i - 1];
      rest
  }

  /** The response code: Success when there is an answer, or when the
      questions ask for AAAA and never for A; Name Error otherwise. */
  function Rcode(answers: seq<ARecord>, qs: seq<Question>): nat {
    if answers != [] then RcodeSuccess
    else if HasQueryType(qs, TypeAAAA) && !HasQueryType(qs, TypeA) then RcodeSuccess
    else RcodeNameError
  }

  /** handleRequest's reply. The source reads the first question when it
      logs an unanswered request, so a request must carry a question. */
  function Respond(t: Tables, req: Request): (r: Reply)
    requires |req.questions| > 0
    ensures r.id == req.id && r.answers == Answers(t, req.questions)
    ensures r.authoritative <==> r.answers != []
    ensures r.rcode == RcodeSuccess || r.rcode == RcodeNameError
    ensures r.rcode == RcodeSuccess <==>
              r.answers != [] || (HasQueryType(req.questions, TypeAAAA) && !HasQueryType(req.questions, TypeA))
  {
    var answers := Answers(t, req.questions);
    Reply(req.id, answers, answers != [], Rcode(answers, req.questions))
  }

  /** A request that asks for AAAA and never for A gets an empty,
      non-authoritative Success reply: only A questions are answered. */
  lemma AaaaOnlySucceeds(t: Tables, req: Request)
    requires HasQueryType(req.questions, TypeAAAA) && !HasQueryType(req.questions, TypeA)
    ensures Respond(t, req) == Reply(req.id, [], false, RcodeSuccess)
  {
    AnswersEmptyIff(t, req.questions);
  }

  /** A request that asks for neither A nor AAAA gets Name Error. */
  lemma OtherTypesNameError(t: Tables, req: Request)
    requires |req.questions| > 0
    requires forall i :: 0 <= i < |req.questions| ==> req.questions[i].qtype != TypeA && req.questions[i].qtype != TypeAAAA
    ensures Respond(t, req) == Reply(req.id, [], false, RcodeNameError)
  {
    AnswersEmptyIff(t, req.questions);
  }

  /** One A question that resolves makes the reply an authoritative
      Success carrying that question's record, whatever else is asked. */
  lemma ResolvedQuestionSucceeds(t: Tables, req: Request, i: nat)
    requires i < |req.questions|
    requires req.questions[i].qtype == TypeA && Resolve(t, req.questions[i].name).Some?
    ensures var r := Respond(t, req);
            && r.rcode == RcodeSuccess && r.authoritative
            && ARecord(req.questions[i].name, TypeA, ClassINET, AnswerTtl, Resolve(t, req.questions[i].name).value) in r.answers
  {
    AnswersComplete(t, req.questions);
  }

  /** With no answer, an A question (resolved or not) makes the reply Name
      Error even when an AAAA question is present too. */
  lemma UnansweredAQuestionNameError(t: Tables, req: Request, i: nat)
    requires i < |req.questions| && req.questions[i].qtype == TypeA
    requires Answers(t, req.questions) == []
    ensures Respond(t, req).rcode == RcodeNameError
  {
  }
}
