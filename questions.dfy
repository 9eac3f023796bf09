/**
 Hydration of a `Question` (and of its nested `ClosedDetails`) from the dictionary of one
 item of an API response, as `Question.init(dictionary:)` and
 `Question.ClosedDetails.init(dictionary:)` do it: each field is read with a checked cast of
 `dictionary[key]`; a missing key, a null or a value of another kind leaves the field unset
 and is never an error. The only failable step is `init?(jsonString:)`, which gives nil when
 the text does not parse to a top-level object.
 */
module Questions {
  import opened Wrappers
  import opened Json

  /** The shared base part of every content item. Post.swift is not part of this model, so
      the base part is represented by the dictionary it was hydrated from. */
  datatype Post = Post(source: Dictionary)

  /** `Notice(dictionary:)`: Notice.swift is not part of this model either. */
  datatype Notice = Notice(source: Dictionary)

  /** `Date(timeIntervalSince1970:)`: an instant given by its (exact) offset from the epoch. */
  datatype Date = Date(secondsSince1970: real)

  /** The reading of a timestamp field, `if let t = dictionary[key] as? Double { Date(t) }`,
      with the field left at its nil default otherwise: the number is converted once, directly. */
  function DateAt(d: Dictionary, key: string): (r: Option<Date>)
    ensures r.Some? <==> key in d && d[key].JNumber?
    ensures r.Some? ==> d[key] == JNumber(r.value.secondsSince1970)
  {
    match AsDouble(Lookup(d, key))
    case Some(t) => Some(Date(t))
    case None => None
  }

  /** The abstract value of `ClosedDetails(dictionary: d)`. `by_users` is never read, and the
      questions hydrated from `original_questions` are dropped, so both always stay unset. */
  function ClosedDetailsOf(d: Dictionary): (cd: ClosedDetails) {
    ClosedDetails(None, AsString(Lookup(d, "description")), AsBool(Lookup(d, "on_hold")),
                  None, AsString(Lookup(d, "reason")))
  }

  /** Details about a question closure (a value type, `struct ClosedDetails`). */
  datatype ClosedDetails = ClosedDetails(
    byUsers: Option<seq<Json>>,
    description: Option<string>,
    onHold: Option<bool>,
    originalQuestions: Option<seq<Question>>,
    reason: Option<string>)
  {
    /** `init(dictionary:)`. When `original_questions` is an array of objects, a Question is
        hydrated from each of them into a local list, which is then discarded. */
    static method FromDictionary(d: Dictionary) returns (cd: ClosedDetails)
      decreases JObject(d)
      ensures cd == ClosedDetailsOf(d)
    {
      var description := AsString(Lookup(d, "description"));
      var onHold := AsBool(Lookup(d, "on_hold"));
      var questionsArray := AsObjectArray(Lookup(d, "original_questions"));
      if questionsArray.Some? {
        var questionsTmp: seq<Question> := [];
        for i := 0 to |questionsArray.value|
          invariant |questionsTmp| == i
          invariant forall j :: 0 <= j < i ==> questionsTmp[j].HydratedFrom(questionsArray.value[j])
        {
          assert JObject(questionsArray.value[i]) == d["original_questions"].elements[i];
          var questionTmp := new Question(questionsArray.value[i]);
          questionsTmp := questionsTmp + [questionTmp];
        }
      }
      var reason := AsString(Lookup(d, "reason"));
      cd := ClosedDetails(None, description, onHold, None, reason);
    }

    /** `init?(jsonString:)`: nil exactly when the text does not parse (`parse` gives None, the
        thrown error) or parses to something other than an object. */
    static method FromJsonString(json: string, parse: string -> Option<Json>) returns (r: Option<ClosedDetails>)
      ensures r.Some? <==> parse(json).Some? && parse(json).value.JObject?
      ensures r.Some? ==> r.value == ClosedDetailsOf(parse(json).value.members)
    {
      var dictionary := AsObject(parse(json));
      if dictionary.None? {
        return None;
      }
      var cd := FromDictionary(dictionary.value);
      r := Some(cd);
    }
  }

  /** Reading `closed_details`: hydrated only when the key holds an object. */
  function ClosedDetailsAt(d: Dictionary): (r: Option<ClosedDetails>)
    ensures r.Some? <==> "closed_details" in d && d["closed_details"].JObject?
    ensures r.Some? ==> r == Some(ClosedDetailsOf(d["closed_details"].members))
  {
    match AsObject(Lookup(d, "closed_details"))
    case Some(m) => Some(ClosedDetailsOf(m))
    case None => None
  }

  /** Reading `notice`: hydrated only when the key holds an object. */
  function NoticeAt(d: Dictionary): (r: Option<Notice>)
    ensures r.Some? <==> "notice" in d && d["notice"].JObject?
    ensures r.Some? ==> r == Some(Notice(d["notice"].members))
  {
    match AsObject(Lookup(d, "notice"))
    case Some(m) => Some(Notice(m))
    case None => None
  }

  /** A question: the base `Post` part plus the question-specific optional fields. */
  class Question {
    var post: Post
    var acceptedAnswerId: Option<int>
    var answerCount: Option<int>
    var answers: Option<seq<Json>>
    var bountyAmount: Option<int>
    var bountyClosesDate: Option<Date>
    var bountyUser: Option<Json>
    var canClose: Option<bool>
    var canFlag: Option<bool>
    var closeVoteCount: Option<int>
    var closedDate: Option<Date>
    var closedDetails: Option<ClosedDetails>
    var closedReason: Option<string>
    var communityOwnedDate: Option<Date>
    var creationDate: Option<Date>
    var deleteVoteCount: Option<int>
    var favoriteCount: Option<int>
    var favorited: Option<bool>
    var isAnswered: Option<bool>
    var lockedDate: Option<Date>
    var migratedFrom: Option<Json>
    var migratedTo: Option<Json>
    var notice: Option<Notice>
    var protectedDate: Option<Date>
    var questionId: Option<int>
    var reopenVoteCount: Option<int>
    var tags: Option<seq<string>>
    var viewCount: Option<int>

    /** The state `init(dictionary: d)` leaves: the base part is the one hydrated from `d`;
        each question-specific field holds the checked cast of its own key (`favorited` is read
        from the key "favorites"); the fields the initialiser never reads stay unset. */
    ghost predicate HydratedFrom(d: Dictionary)
      reads this
    {
      && post == Post(d)
      && acceptedAnswerId == AsInt(Lookup(d, "accepted_answer_id"))
      && answerCount == AsInt(Lookup(d, "answer_count"))
      && bountyAmount == AsInt(Lookup(d, "bounty_amount"))
      && bountyClosesDate == DateAt(d, "bounty_closes_date")
      && canClose == AsBool(Lookup(d, "can_close"))
      && canFlag == AsBool(Lookup(d, "can_flag"))
      && closeVoteCount == AsInt(Lookup(d, "close_vote_count"))
      && closedDate == DateAt(d, "closed_date")
      && closedDetails == ClosedDetailsAt(d)
      && closedReason == AsString(Lookup(d, "closed_reason"))
      && communityOwnedDate == DateAt(d, "community_owned_date")
      && creationDate == DateAt(d, "creation_date")
      && deleteVoteCount == AsInt(Lookup(d, "delete_vote_count"))
      && favoriteCount == AsInt(Lookup(d, "favorite_count"))
      && favorited == AsBool(Lookup(d, "favorites"))
      && isAnswered == AsBool(Lookup(d, "is_answered"))
      && lockedDate == DateAt(d, "locked_date")
      && notice == NoticeAt(d)
      && protectedDate == DateAt(d, "protected_date")
      && questionId == AsInt(Lookup(d, "question_id"))
      && reopenVoteCount == AsInt(Lookup(d, "reopen_vote_count"))
      && tags == AsStringArray(Lookup(d, "tags"))
      && viewCount == AsInt(Lookup(d, "view_count"))
      && answers.None? && bountyUser.None? && migratedFrom.None? && migratedTo.None?
    }

    /** `init(dictionary:)`. The fields that are written conditionally or never get their nil
        defaults; the base part is hydrated (`super.init(dictionary:)`) before any field is read
        from the dictionary; then the question-specific fields are written, each from a checked
        cast of its own key. */
    constructor (d: Dictionary)
      decreases JObject(d), 1
      ensures HydratedFrom(d)
    {
      // nil defaults of the stored properties that are written conditionally or never
      answers, bountyUser, migratedFrom, migratedTo, notice := None, None, None, None, None;
      // super.init(dictionary:)
      post := Post(d);
      // the nested closure details neither read nor write this question, so hydrating them
      // ahead of their field's turn is not observable
      var closedDetailsValue := ClosedDetailsField(d);
      // the question-specific fields, in the order the initialiser writes them
      acceptedAnswerId := AsInt(Lookup(d, "accepted_answer_id"));
      answerCount := AsInt(Lookup(d, "answer_count"));
      bountyAmount := AsInt(Lookup(d, "bounty_amount"));
      bountyClosesDate := DateAt(d, "bounty_closes_date");
      canClose := AsBool(Lookup(d, "can_close"));
      canFlag := AsBool(Lookup(d, "can_flag"));
      closeVoteCount := AsInt(Lookup(d, "close_vote_count"));
      closedDate := DateAt(d, "closed_date");
      closedDetails := closedDetailsValue;
      closedReason := AsString(Lookup(d, "closed_reason"));
      communityOwnedDate := DateAt(d, "community_owned_date");
      creationDate := DateAt(d, "creation_date");
      deleteVoteCount := AsInt(Lookup(d, "delete_vote_count"));
      favoriteCount := AsInt(Lookup(d, "favorite_count"));
      favorited := AsBool(Lookup(d, "favorites"));
      isAnswered := AsBool(Lookup(d, "is_answered"));
      lockedDate := DateAt(d, "locked_date");
      var noticeDict := AsObject(Lookup(d, "notice"));
      if noticeDict.Some? {
        notice := Some(Notice(noticeDict.value));
      }
      protectedDate := DateAt(d, "protected_date");
      questionId := AsInt(Lookup(d, "question_id"));
      reopenVoteCount := AsInt(Lookup(d, "reopen_vote_count"));
      tags := AsStringArray(Lookup(d, "tags"));
      viewCount := AsInt(Lookup(d, "view_count"));
      new;
    }

    /** `if let closedDetailsDict = dictionary["closed_details"] as? [String: Any] { ClosedDetails(dictionary: closedDetailsDict) }` */
    static method ClosedDetailsField(d: Dictionary) returns (r: Option<ClosedDetails>)
      decreases JObject(d), 0
      ensures r == ClosedDetailsAt(d)
    {
      r := None;
      var closedDetailsDict := AsObject(Lookup(d, "closed_details"));
      if closedDetailsDict.Some? {
        assert JObject(closedDetailsDict.value) == d["closed_details"];
        var cd := ClosedDetails.FromDictionary(closedDetailsDict.value);
        r := Some(cd);
      }
    }

    /** `init?(jsonString:)`: null exactly when the text does not parse to a top-level object;
        otherwise a fresh question hydrated from that object. */
    static method FromJsonString(json: string, parse: string -> Option<Json>) returns (q: Question?)
      ensures q == null <==> AsObject(parse(json)).None?
      ensures q != null ==> fresh(q) && q.HydratedFrom(parse(json).value.members)
    {
      var dictionary := AsObject(parse(json));
      if dictionary.None? {
        return null;
      }
      q := new Question(dictionary.value);
    }
  }

  /** Each of the fourteen scalar fields is set exactly when its key holds a value of the
      field's kind (for an `Int`, an integral number in 64-bit range), and then holds that
      value; a missing key, a null or another kind leaves it unset. */
  lemma ScalarFieldsFollowKinds(q: Question, d: Dictionary)
    requires q.HydratedFrom(d)
    ensures q.acceptedAnswerId.Some? <==> "accepted_answer_id" in d && d["accepted_answer_id"].JNumber? && IsSwiftInt(d["accepted_answer_id"].number)
    ensures q.acceptedAnswerId.Some? ==> d["accepted_answer_id"] == JNumber(q.acceptedAnswerId.value as real)
    ensures q.answerCount.Some? <==> "answer_count" in d && d["answer_count"].JNumber? && IsSwiftInt(d["answer_count"].number)
    ensures q.answerCount.Some? ==> d["answer_count"] == JNumber(q.answerCount.value as real)
    ensures q.bountyAmount.Some? <==> "bounty_amount" in d && d["bounty_amount"].JNumber? && IsSwiftInt(d["bounty_amount"].number)
    ensures q.bountyAmount.Some? ==> d["bounty_amount"] == JNumber(q.bountyAmount.value as real)
    ensures q.canClose.Some? <==> "can_close" in d && d["can_close"].JBool?
    ensures q.canClose.Some? ==> d["can_close"] == JBool(q.canClose.value)
    ensures q.canFlag.Some? <==> "can_flag" in d && d["can_flag"].JBool?
    ensures q.canFlag.Some? ==> d["can_flag"] == JBool(q.canFlag.value)
    ensures q.closeVoteCount.Some? <==> "close_vote_count" in d && d["close_vote_count"].JNumber? && IsSwiftInt(d["close_vote_count"].number)
    ensures q.closeVoteCount.Some? ==> d["close_vote_count"] == JNumber(q.closeVoteCount.value as real)
    ensures q.closedReason.Some? <==> "closed_reason" in d && d["closed_reason"].JString?
    ensures q.closedReason.Some? ==> d["closed_reason"] == JString(q.closedReason.value)
    ensures q.deleteVoteCount.Some? <==> "delete_vote_count" in d && d["delete_vote_count"].JNumber? && IsSwiftInt(d["delete_vote_count"].number)
    ensures q.deleteVoteCount.Some? ==> d["delete_vote_count"] == JNumber(q.deleteVoteCount.value as real)
    ensures q.favoriteCount.Some? <==> "favorite_count" in d && d["favorite_count"].JNumber? && IsSwiftInt(d["favorite_count"].number)
    ensures q.favoriteCount.Some? ==> d["favorite_count"] == JNumber(q.favoriteCount.value as real)
    ensures q.favorited.Some? <==> "favorites" in d && d["favorites"].JBool?
    ensures q.favorited.Some? ==> d["favorites"] == JBool(q.favorited.value)
    ensures q.isAnswered.Some? <==> "is_answered" in d && d["is_answered"].JBool?
    ensures q.isAnswered.Some? ==> d["is_answered"] == JBool(q.isAnswered.value)
    ensures q.questionId.Some? <==> "question_id" in d && d["question_id"].JNumber? && IsSwiftInt(d["question_id"].number)
    ensures q.questionId.Some? ==> d["question_id"] == JNumber(q.questionId.value as real)
    ensures q.reopenVoteCount.Some? <==> "reopen_vote_count" in d && d["reopen_vote_count"].JNumber? && IsSwiftInt(d["reopen_vote_count"].number)
    ensures q.reopenVoteCount.Some? ==> d["reopen_vote_count"] == JNumber(q.reopenVoteCount.value as real)
    ensures q.viewCount.Some? <==> "view_count" in d && d["view_count"].JNumber? && IsSwiftInt(d["view_count"].number)
    ensures q.viewCount.Some? ==> d["view_count"] == JNumber(q.viewCount.value as real)
  {
  }

  /** Each of the six timestamps is set exactly when its key holds a number, to that many
      seconds after the epoch. */
  lemma TimestampsFollowNumbers(q: Question, d: Dictionary)
    requires q.HydratedFrom(d)
    ensures q.bountyClosesDate.Some? <==> "bounty_closes_date" in d && d["bounty_closes_date"].JNumber?
    ensures q.bountyClosesDate.Some? ==> q.bountyClosesDate.value.secondsSince1970 == d["bounty_closes_date"].number
    ensures q.closedDate.Some? <==> "closed_date" in d && d["closed_date"].JNumber?
    ensures q.closedDate.Some? ==> q.closedDate.value.secondsSince1970 == d["closed_date"].number
    ensures q.communityOwnedDate.Some? <==> "community_owned_date" in d && d["community_owned_date"].JNumber?
    ensures q.communityOwnedDate.Some? ==> q.communityOwnedDate.value.secondsSince1970 == d["community_owned_date"].number
    ensures q.creationDate.Some? <==> "creation_date" in d && d["creation_date"].JNumber?
    ensures q.creationDate.Some? ==> q.creationDate.value.secondsSince1970 == d["creation_date"].number
    ensures q.lockedDate.Some? <==> "locked_date" in d && d["locked_date"].JNumber?
    ensures q.lockedDate.Some? ==> q.lockedDate.value.secondsSince1970 == d["locked_date"].number
    ensures q.protectedDate.Some? <==> "protected_date" in d && d["protected_date"].JNumber?
    ensures q.protectedDate.Some? ==> q.protectedDate.value.secondsSince1970 == d["protected_date"].number
  {
  }

  /** `favorited` is read from the key "favorites"; the key "favorited" has no effect on it. */
  lemma FavoritedReadsFavorites(q: Question, q': Question, d: Dictionary, v: Json)
    requires q.HydratedFrom(d) && q'.HydratedFrom(d["favorited" := v])
    ensures q.favorited.Some? <==> "favorites" in d && d["favorites"].JBool?
    ensures q'.favorited == q.favorited
  {
  }

  /** `tags` is set only for an array whose elements are all strings, and then lists them. */
  lemma TagsNeedAllStrings(q: Question, d: Dictionary)
    requires q.HydratedFrom(d)
    ensures q.tags.Some? <==> "tags" in d && d["tags"].JArray? &&
                              forall i :: 0 <= i < |d["tags"].elements| ==> d["tags"].elements[i].JString?
    ensures q.tags.Some? ==> |q.tags.value| == |d["tags"].elements| &&
                             forall i :: 0 <= i < |q.tags.value| ==> d["tags"].elements[i] == JString(q.tags.value[i])
  {
  }

  /** `closed_details` is set only for an object, and then from that object; its
      `original_questions` stays unset even when the key holds an array of objects. */
  lemma ClosedDetailsFollowObject(q: Question, d: Dictionary)
    requires q.HydratedFrom(d)
    ensures q.closedDetails.Some? <==> "closed_details" in d && d["closed_details"].JObject?
    ensures q.closedDetails.Some? ==>
              var cd := q.closedDetails.value;
              var m := d["closed_details"].members;
              && cd.description == AsString(Lookup(m, "description"))
              && cd.onHold == AsBool(Lookup(m, "on_hold"))
              && cd.reason == AsString(Lookup(m, "reason"))
              && cd.originalQuestions.None?
              && cd.byUsers.None?
    ensures q.notice.Some? <==> "notice" in d && d["notice"].JObject?
  {
  }

  /** An empty object hydrates to a question with every question-specific field unset. */
  lemma EmptyObjectLeavesAllUnset(q: Question)
    requires q.HydratedFrom(map[])
    ensures q.post == Post(map[])
    ensures q.acceptedAnswerId.None? && q.answerCount.None? && q.answers.None? && q.bountyAmount.None?
    ensures q.bountyClosesDate.None? && q.bountyUser.None? && q.canClose.None? && q.canFlag.None?
    ensures q.closeVoteCount.None? && q.closedDate.None? && q.closedDetails.None? && q.closedReason.None?
    ensures q.communityOwnedDate.None? && q.creationDate.None? && q.deleteVoteCount.None?
    ensures q.favoriteCount.None? && q.favorited.None? && q.isAnswered.None? && q.lockedDate.None?
    ensures q.migratedFrom.None? && q.migratedTo.None? && q.notice.None? && q.protectedDate.None?
    ensures q.questionId.None? && q.reopenVoteCount.None? && q.tags.None? && q.viewCount.None?
  {
  }

  /** The item `{"question_id": 1, "creation_date": 1000000000}`. */
  const ExampleItem: Dictionary := map["question_id" := JNumber(1.0), "creation_date" := JNumber(1000000000.0)]

  /** Hydrating it sets exactly `question_id` and `creation_date`. */
  lemma ExampleItemHydration(q: Question)
    requires q.HydratedFrom(ExampleItem)
    ensures q.questionId == Some(1) && q.creationDate == Some(Date(1000000000.0))
    ensures q.acceptedAnswerId.None? && q.answerCount.None? && q.answers.None? && q.bountyAmount.None?
    ensures q.bountyClosesDate.None? && q.bountyUser.None? && q.canClose.None? && q.canFlag.None?
    ensures q.closeVoteCount.None? && q.closedDate.None? && q.closedDetails.None? && q.closedReason.None?
    ensures q.communityOwnedDate.None? && q.deleteVoteCount.None?
    ensures q.favoriteCount.None? && q.favorited.None? && q.isAnswered.None? && q.lockedDate.None?
    ensures q.migratedFrom.None? && q.migratedTo.None? && q.notice.None? && q.protectedDate.None?
    ensures q.reopenVoteCount.None? && q.tags.None? && q.viewCount.None?
  {
  }
}
