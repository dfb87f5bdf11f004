/**
  * The "share with community" composer: a message tab and a poll tab whose
  * options stay between two and five, and a post button that emits a post and
  * clears the fields of the tab it came from.
  */
module Community {
  import opened Options
  import opened Text

  datatype PostType = Message | Poll

  /** The record handed to `onPost`: a poll also carries its option texts. */
  datatype PostDraft = PostDraft(kind: PostType, content: string, pollOptions: Option<seq<string>>)

  /**
    * `s.trim()` is truthy: the field holds something besides whitespace (by
    * the contract of `Trim`, exactly when `Trim(s) != ""`).
    */
  predicate Filled(s: string) {
    !IsBlank(s)
  }

  /** `options.every(opt => opt.trim())` */
  predicate AllFilled(options: seq<string>) {
    forall i :: 0 <= i < |options| ==> Filled(options[i])
  }

  /** `options.filter(opt => opt.trim())`: the filled options, in order. */
  function FilledOptions(options: seq<string>): (r: seq<string>)
    ensures |r| <= |options|
    ensures AllFilled(r)
    ensures forall x :: x in r <==> x in options && Filled(x)
    ensures AllFilled(options) ==> r == options
  {
    if options == [] then []
    else if Filled(options[0]) then [options[0]] + FilledOptions(options[1..])
    else FilledOptions(options[1..])
  }

  /** The post handler's guard for the active tab. */
  predicate CanPost(tab: PostType, message: string, question: string, options: seq<string>) {
    || (tab == Message && Filled(message))
    || (tab == Poll && Filled(question) && AllFilled(options))
  }

  /** The post button's `disabled` expression, as the button states it. */
  predicate PostDisabled(tab: PostType, message: string, question: string, options: seq<string>) {
    || (tab == Message && Trim(message) == "")
    || (tab == Poll && (Trim(question) == "" || !AllFilled(options)))
  }

  /**
    * What the post handler hands to `onPost`, if anything: the untrimmed
    * message, or the question with the whole option list.
    */
  function Submission(tab: PostType, message: string, question: string, options: seq<string>): (r: Option<PostDraft>)
    ensures r.Some? <==> CanPost(tab, message, question, options)
    ensures r.Some? <==> !PostDisabled(tab, message, question, options)
    ensures r.Some? && tab == Message ==> r.value == PostDraft(Message, message, None)
    ensures r.Some? && tab == Poll ==> r.value == PostDraft(Poll, question, Some(options))
  {
    if tab == Message && Filled(message) then
      Some(PostDraft(Message, message, None))
    else if tab == Poll && Filled(question) && AllFilled(options) then
      Some(PostDraft(Poll, question, Some(FilledOptions(options))))
    else
      None
  }

  /** `s.filter((_, i) => i !== index)`: drops the element at `index`, if there is one. */
  function RemoveAt(s: seq<string>, index: int): (r: seq<string>)
    ensures 0 <= index < |s| ==> r == s[..index] + s[index + 1..]
    ensures !(0 <= index < |s|) ==> r == s
  {
    if s == [] then []
    else if index == 0 then s[1..]
    else
      var rest := RemoveAt(s[1..], index - 1);
      assert 0 < index < |s| ==> s[1..][..index - 1] == s[1..index];
      [s[0]] + rest
  }

  class CommunityPostModal {
    var activeTab: PostType
    var messageContent: string
    var pollQuestion: string
    var pollOptions: seq<string>

    /** The add and remove guards keep between two and five poll options. */
    ghost predicate Valid()
      reads this
    {
      2 <= |pollOptions| <= 5
    }

    constructor ()
      ensures Valid()
      ensures activeTab == Message && messageContent == "" && pollQuestion == "" && pollOptions == ["", ""]
    {
      activeTab := Message;
      messageContent, pollQuestion := "", "";
      pollOptions := ["", ""];
    }

    method SetActiveTab(tab: PostType)
      modifies this`activeTab
      ensures activeTab == tab
    {
      activeTab := tab;
    }

    method SetMessageContent(value: string)
      modifies this`messageContent
      ensures messageContent == value
    {
      messageContent := value;
    }

    method SetPollQuestion(value: string)
      modifies this`pollQuestion
      ensures pollQuestion == value
    {
      pollQuestion := value;
    }

    /** Appends an empty option unless there are already five. */
    method HandleAddPollOption()
      requires Valid()
      modifies this`pollOptions
      ensures Valid()
      ensures pollOptions == if |old(pollOptions)| < 5 then old(pollOptions) + [""] else old(pollOptions)
    {
      if |pollOptions| < 5 {
        pollOptions := pollOptions + [""];
      }
    }

    /** Removes the option at `index` unless only two are left. */
    method HandleRemovePollOption(index: int)
      requires Valid()
      modifies this`pollOptions
      ensures Valid()
      ensures pollOptions == if |old(pollOptions)| > 2 then RemoveAt(old(pollOptions), index) else old(pollOptions)
    {
      if |pollOptions| > 2 {
        pollOptions := RemoveAt(pollOptions, index);
      }
    }

    /** Replaces the text of option `index` (one of the rendered inputs). */
    method HandlePollOptionChange(index: nat, value: string)
      requires Valid()
      requires index < |pollOptions|
      modifies this`pollOptions
      ensures Valid()
      ensures pollOptions == old(pollOptions)[index := value]
    {
      pollOptions := pollOptions[index := value];
    }

    /** The post button is disabled exactly when the post handler would do nothing. */
    function IsPostDisabled(): (disabled: bool)
      reads this
      ensures disabled <==> !CanPost(activeTab, messageContent, pollQuestion, pollOptions)
    {
      PostDisabled(activeTab, messageContent, pollQuestion, pollOptions)
    }

    /**
      * Emits the post when the active tab's guard holds, clears only that tab's
      * fields and asks to be closed; otherwise changes nothing.
      */
    method HandlePost() returns (posted: Option<PostDraft>, closeRequested: bool)
      requires Valid()
      modifies this`messageContent, this`pollQuestion, this`pollOptions
      ensures Valid()
      ensures posted == Submission(activeTab, old(messageContent), old(pollQuestion), old(pollOptions))
      ensures closeRequested <==> posted.Some?
      ensures posted.None? ==>
        messageContent == old(messageContent) && pollQuestion == old(pollQuestion) && pollOptions == old(pollOptions)
      ensures posted.Some? && activeTab == Message ==>
        messageContent == "" && pollQuestion == old(pollQuestion) && pollOptions == old(pollOptions)
      ensures posted.Some? && activeTab == Poll ==>
        messageContent == old(messageContent) && pollQuestion == "" && pollOptions == ["", ""]
    {
      posted := Submission(activeTab, messageContent, pollQuestion, pollOptions);
      closeRequested := posted.Some?;
      if posted.Some? {
        if activeTab == Message {
          messageContent := "";
        } else {
          pollQuestion := "";
          pollOptions := ["", ""];
        }
      }
    }
  }

  /** Adding past five options or removing below two changes nothing. */
  method OptionBoundsExample() returns (afterAdds: nat, afterRemove: nat)
    ensures afterAdds == 5 && afterRemove == 2
  {
    var modal := new CommunityPostModal();
    modal.HandleRemovePollOption(0);
    afterRemove := |modal.pollOptions|;
    modal.HandleAddPollOption();
    modal.HandleAddPollOption();
    modal.HandleAddPollOption();
    modal.HandleAddPollOption();
    afterAdds := |modal.pollOptions|;
  }

  lemma PollSubmission(message: string, question: string, options: seq<string>)
    requires Filled(question) && AllFilled(options)
    ensures Submission(Poll, message, question, options) == Some(PostDraft(Poll, question, Some(options)))
  {
  }

  /** Opens the dialog, picks the poll tab and types a question and two options. */
  method ComposePoll(question: string, first: string, second: string) returns (modal: CommunityPostModal)
    ensures fresh(modal) && modal.Valid()
    ensures modal.activeTab == Poll && modal.pollQuestion == question && modal.pollOptions == [first, second]
  {
    modal := new CommunityPostModal();
    modal.SetActiveTab(Poll);
    modal.SetPollQuestion(question);
    modal.HandlePollOptionChange(0, first);
    modal.HandlePollOptionChange(1, second);
  }

  /**
    * On the poll tab, a filled question with two filled options is posted with
    * both options, and the dialog asks to close.
    */
  method PollComposeExample(question: string, first: string, second: string)
      returns (posted: Option<PostDraft>, closeRequested: bool)
    requires Filled(question) && Filled(first) && Filled(second)
    ensures posted == Some(PostDraft(Poll, question, Some([first, second])))
    ensures closeRequested
  {
    var modal := ComposePoll(question, first, second);
    PollSubmission(modal.messageContent, question, [first, second]);
    posted, closeRequested := modal.HandlePost();
  }
}
