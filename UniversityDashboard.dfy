/**
  * The university placement dashboard's own collections: the notification list
  * with its unread badge, the community feed that new posts are prepended to,
  * the poll-share rule, and the offline-placement form.
  */
module University {
  import opened Options
  import opened Text
  import opened Community

  datatype NotificationType = OfferEvent | InterviewEvent | ApplicationEvent | SystemEvent

  datatype Notification = Notification(
    id: string, title: string, message: string, time: string, read: bool, kind: NotificationType)

  datatype PollOption = PollOption(option: string, votes: nat)

  /** A feed entry; `pollOptions` is absent on posts that carry none. */
  datatype CommunityPost = CommunityPost(
    id: string, author: string, kind: PostType, content: string, timestamp: string,
    likes: nat, comments: nat, pollOptions: Option<seq<PollOption>>)

  datatype OfflineForm = OfflineForm(companyName: string, role: string, studentName: string, offerType: string, ctc: string)

  /** The inputs of the offline-placement dialog. */
  datatype OfflineField = CompanyName | Role | StudentName | Ctc

  /** The empty offline-placement form the dialog starts from and returns to. */
  const EmptyOfflineForm := OfflineForm("", "", "", "full-time", "")

  // ----- Notifications -----

  /** `notifications.filter(n => !n.read)` */
  function Unread(ns: seq<Notification>): (r: seq<Notification>)
    ensures |r| <= |ns|
    ensures forall n :: n in r <==> n in ns && !n.read
  {
    if ns == [] then []
    else if !ns[0].read then [ns[0]] + Unread(ns[1..])
    else Unread(ns[1..])
  }

  /** The unread badge: how many notifications are not read; zero exactly when all are. */
  function UnreadCount(ns: seq<Notification>): (count: nat)
    ensures count <= |ns|
    ensures count == 0 <==> forall i :: 0 <= i < |ns| ==> ns[i].read
  {
    var r := Unread(ns);
    assert forall i :: 0 <= i < |ns| && !ns[i].read ==> ns[i] in r;
    assert r != [] ==> r[0] in r;
    |r|
  }

  /** Marks read the notifications carrying `id`; all others, and the order, stay as they were. */
  function MarkRead(ns: seq<Notification>, id: string): (r: seq<Notification>)
    ensures |r| == |ns|
    ensures forall i :: 0 <= i < |ns| ==> r[i] == if ns[i].id == id then ns[i].(read := true) else ns[i]
  {
    if ns == [] then []
    else [if ns[0].id == id then ns[0].(read := true) else ns[0]] + MarkRead(ns[1..], id)
  }

  /** Marks every notification read, keeping everything else about it and the order. */
  function MarkAllRead(ns: seq<Notification>): (r: seq<Notification>)
    ensures |r| == |ns|
    ensures forall i :: 0 <= i < |ns| ==> r[i] == ns[i].(read := true)
  {
    if ns == [] then [] else [ns[0].(read := true)] + MarkAllRead(ns[1..])
  }

  /** The badge counts the first notification when it is unread, plus the badge of the rest. */
  lemma UnreadCountCons(ns: seq<Notification>)
    requires ns != []
    ensures UnreadCount(ns) == (if ns[0].read then 0 else 1) + UnreadCount(ns[1..])
  {
  }

  /**
    * Marking one notification read never raises the badge, and lowers it when a
    * notification with that id was unread.
    */
  lemma {:induction false} MarkReadLowersUnread(ns: seq<Notification>, id: string)
    ensures UnreadCount(MarkRead(ns, id)) <= UnreadCount(ns)
    ensures (exists i :: 0 <= i < |ns| && ns[i].id == id && !ns[i].read) ==>
              UnreadCount(MarkRead(ns, id)) < UnreadCount(ns)
  {
    if ns != [] {
      MarkReadLowersUnread(ns[1..], id);
      var marked := MarkRead(ns, id);
      assert marked[1..] == MarkRead(ns[1..], id);
      UnreadCountCons(ns);
      UnreadCountCons(marked);
      if exists i :: 0 <= i < |ns| && ns[i].id == id && !ns[i].read {
        var i :| 0 <= i < |ns| && ns[i].id == id && !ns[i].read;
        if i > 0 {
          assert ns[1..][i - 1] == ns[i];
        }
      }
    }
  }

  /** After marking all read the badge is zero, and marking all again changes nothing. */
  lemma MarkAllReadClearsBadge(ns: seq<Notification>)
    ensures UnreadCount(MarkAllRead(ns)) == 0
    ensures MarkAllRead(MarkAllRead(ns)) == MarkAllRead(ns)
  {
  }

  // ----- Community feed -----

  /** The sum of the votes over a poll's options (`reduce((sum, opt) => sum + opt.votes, 0)`). */
  function TotalVotes(options: seq<PollOption>): nat {
    if options == [] then 0 else options[0].votes + TotalVotes(options[1..])
  }

  /** A new poll's options: the given texts, in order, each with no votes. */
  function ZeroVotes(texts: seq<string>): (r: seq<PollOption>)
    ensures |r| == |texts|
    ensures forall i :: 0 <= i < |texts| ==> r[i] == PollOption(texts[i], 0)
    ensures TotalVotes(r) == 0
  {
    if texts == [] then [] else [PollOption(texts[0], 0)] + ZeroVotes(texts[1..])
  }

  /**
    * The feed entry built from a composer post: numbered one past the current
    * feed length, written by the signed-in user, with no likes, comments or
    * votes; a post without options gets no options field.
    */
  function NewPost(post: PostDraft, postCount: nat, userName: string): (p: CommunityPost)
    ensures p.id == NatToString(postCount + 1) && p.author == userName
    ensures p.kind == post.kind && p.content == post.content && p.timestamp == "Just now"
    ensures p.likes == 0 && p.comments == 0
    ensures p.pollOptions.Some? <==> post.pollOptions.Some?
    ensures p.pollOptions.Some? ==>
      && |p.pollOptions.value| == |post.pollOptions.value|
      && (forall i :: 0 <= i < |p.pollOptions.value| ==> p.pollOptions.value[i].option == post.pollOptions.value[i])
      && TotalVotes(p.pollOptions.value) == 0
  {
    CommunityPost(
      NatToString(postCount + 1), userName, post.kind, post.content, "Just now", 0, 0,
      if post.pollOptions.Some? then Some(ZeroVotes(post.pollOptions.value)) else None)
  }

  /** Every post id is the decimal form of a number from 1 to the feed length. */
  ghost predicate NumberedIds(posts: seq<CommunityPost>) {
    forall k :: 0 <= k < |posts| ==> exists j :: 1 <= j <= |posts| && posts[k].id == NatToString(j)
  }

  /** No two posts share an id. */
  ghost predicate UniqueIds(posts: seq<CommunityPost>) {
    forall i, j :: 0 <= i < j < |posts| ==> posts[i].id != posts[j].id
  }

  /** The next id, one past the feed length, differs from every id in a numbered feed. */
  lemma NextIdIsFresh(posts: seq<CommunityPost>, k: nat)
    requires NumberedIds(posts) && k < |posts|
    ensures posts[k].id != NatToString(|posts| + 1)
  {
    var j :| 1 <= j <= |posts| && posts[k].id == NatToString(j);
    if posts[k].id == NatToString(|posts| + 1) {
      NatToStringInjective(j, |posts| + 1);
    }
  }

  /** Prepending a post whose id is new keeps the ids distinct. */
  lemma PrependFreshKeepsUnique(posts: seq<CommunityPost>, p: CommunityPost)
    requires UniqueIds(posts)
    requires forall k :: 0 <= k < |posts| ==> posts[k].id != p.id
    ensures UniqueIds([p] + posts)
  {
    var feed := [p] + posts;
    forall i, k | 0 <= i < k < |feed|
      ensures feed[i].id != feed[k].id
    {
      assert feed[k] == posts[k - 1];
      if i > 0 {
        assert feed[i] == posts[i - 1];
      }
    }
  }

  /** Prepending a post numbered one past the feed length keeps every id numbered within the new length. */
  lemma PrependKeepsNumbered(posts: seq<CommunityPost>, p: CommunityPost)
    requires NumberedIds(posts)
    requires p.id == NatToString(|posts| + 1)
    ensures NumberedIds([p] + posts)
  {
    var feed := [p] + posts;
    forall k | 0 <= k < |feed|
      ensures exists j :: 1 <= j <= |feed| && feed[k].id == NatToString(j)
    {
      if k == 0 {
        assert feed[0].id == NatToString(|feed|);
      } else {
        assert feed[k] == posts[k - 1];
        var j :| 1 <= j <= |posts| && posts[k - 1].id == NatToString(j);
        assert feed[k].id == NatToString(j);
      }
    }
  }

  /** Prepending a post numbered one past the feed length keeps the ids numbered and distinct. */
  lemma PrependKeepsIdsUnique(posts: seq<CommunityPost>, p: CommunityPost)
    requires NumberedIds(posts) && UniqueIds(posts)
    requires p.id == NatToString(|posts| + 1)
    ensures NumberedIds([p] + posts) && UniqueIds([p] + posts)
  {
    forall k | 0 <= k < |posts|
      ensures posts[k].id != p.id
    {
      NextIdIsFresh(posts, k);
    }
    PrependFreshKeepsUnique(posts, p);
    PrependKeepsNumbered(posts, p);
  }

  // ----- Poll shares -----

  /** One option's share in percent: `votes / total * 100`, or 0 when nobody has voted. */
  function Share(votes: nat, total: nat): (p: real)
    ensures 0.0 <= p
    ensures votes <= total ==> p <= 100.0
    ensures total == 0 ==> p == 0.0
  {
    if total > 0 then (votes as real / total as real) * 100.0 else 0.0
  }

  /** Each option's share of `total`, in order. */
  function SharesOf(options: seq<PollOption>, total: nat): (r: seq<real>)
    ensures |r| == |options|
    ensures forall i :: 0 <= i < |options| ==> r[i] == Share(options[i].votes, total)
  {
    if options == [] then [] else [Share(options[0].votes, total)] + SharesOf(options[1..], total)
  }

  /** The shares a poll renders, each against the poll's own total. */
  function Shares(options: seq<PollOption>): seq<real> {
    SharesOf(options, TotalVotes(options))
  }

  function SumReal(s: seq<real>): real {
    if s == [] then 0.0 else s[0] + SumReal(s[1..])
  }

  lemma {:induction false} SumSharesOf(options: seq<PollOption>, total: nat)
    requires total > 0
    ensures SumReal(SharesOf(options, total)) == (TotalVotes(options) as real / total as real) * 100.0
  {
    if options != [] {
      SumSharesOf(options[1..], total);
      var v, rest, t := options[0].votes as real, TotalVotes(options[1..]) as real, total as real;
      DivisionAdds(v, rest, t);
    }
  }

  lemma DivisionAdds(a: real, b: real, t: real)
    requires t > 0.0
    ensures (a / t) * 100.0 + (b / t) * 100.0 == ((a + b) / t) * 100.0
  {
    var x, y := a / t, b / t;
    assert x * t == a && y * t == b;
    assert (x + y) * t == a + b;
  }

  /** No option has more votes than the whole poll. */
  lemma {:induction false} VotesWithinTotal(options: seq<PollOption>, i: nat)
    requires i < |options|
    ensures options[i].votes <= TotalVotes(options)
  {
    if i > 0 {
      VotesWithinTotal(options[1..], i - 1);
    }
  }

  lemma DivideBySelf(x: real)
    requires x > 0.0
    ensures x / x == 1.0
  {
  }

  /**
    * The rendered shares lie between 0 and 100; they add up to 100 once anybody
    * has voted, and are all 0 (no division by zero) before that.
    */
  lemma SharesSumTo100(options: seq<PollOption>)
    ensures |Shares(options)| == |options|
    ensures forall i :: 0 <= i < |options| ==> 0.0 <= Shares(options)[i] <= 100.0
    ensures TotalVotes(options) > 0 ==> SumReal(Shares(options)) == 100.0
    ensures TotalVotes(options) == 0 ==> forall i :: 0 <= i < |options| ==> Shares(options)[i] == 0.0
  {
    forall i | 0 <= i < |options| ensures Shares(options)[i] <= 100.0 {
      VotesWithinTotal(options, i);
    }
    var t := TotalVotes(options);
    if t > 0 {
      SumSharesOf(options, t);
      DivideBySelf(t as real);
    }
  }

  /** Votes of 3, 1, 0 and 0 are shown as 75%, 25%, 0% and 0%; two unvoted options as 0% each. */
  lemma SharesExample()
    ensures Shares([PollOption("A", 3), PollOption("B", 1), PollOption("C", 0), PollOption("D", 0)])
         == [75.0, 25.0, 0.0, 0.0]
    ensures Shares([PollOption("A", 0), PollOption("B", 0)]) == [0.0, 0.0]
  {
    var four := [PollOption("A", 3), PollOption("B", 1), PollOption("C", 0), PollOption("D", 0)];
    assert TotalVotes(four) == 4;
    var two := [PollOption("A", 0), PollOption("B", 0)];
    assert TotalVotes(two) == 0;
  }

  // ----- The seeded collections -----

  /** The notifications the dashboard mounts with: two unread, two read. */
  const SeedNotifications: seq<Notification> := [
    Notification("1", "New Offer Received", "Priya Sharma received offer from TechCorp",
                 "2 hours ago", false, OfferEvent),
    Notification("2", "Interview Scheduled", "5 students have interviews scheduled for tomorrow",
                 "4 hours ago", false, InterviewEvent),
    Notification("3", "New Applications", "15 students applied to CloudSys positions",
                 "6 hours ago", true, ApplicationEvent),
    Notification("4", "System Update", "Dashboard analytics have been updated",
                 "1 day ago", true, SystemEvent)
  ]

  /** The community posts the dashboard mounts with. */
  const SeedPosts: seq<CommunityPost> := [
    CommunityPost("1", "Dr. Rajesh Kumar", Message,
      "Great news! We've partnered with 3 new companies this month. More opportunities for our students! \U{1F389}",
      "3 hours ago", 24, 8, None),
    CommunityPost("2", "Prof. Anita Desai", Poll,
      "Which technical skill should we prioritize for upcoming placements?", "1 day ago", 15, 12,
      Some([PollOption("Full Stack Development", 45), PollOption("Data Science & ML", 38),
            PollOption("Cloud Computing", 28), PollOption("Cybersecurity", 19)]))
  ]

  lemma SeedFacts()
    ensures |SeedNotifications| == 4 && UnreadCount(SeedNotifications) == 2
    ensures |SeedPosts| == 2 && NumberedIds(SeedPosts) && UniqueIds(SeedPosts)
  {
    var ns := SeedNotifications;
    assert Unread(ns[3..]) == [];
    assert Unread(ns[2..]) == [];
    assert Unread(ns[1..]) == [ns[1]];
    assert Unread(ns) == [ns[0], ns[1]];
    assert SeedPosts[0].id == NatToString(1) && SeedPosts[1].id == NatToString(2);
  }

  // ----- The dashboard -----

  class UniversityDashboard {
    const universityName: string
    const userName: string
    var notifications: seq<Notification>
    var communityPosts: seq<CommunityPost>
    var offlineFormData: OfflineForm
    var showAddOfflineDialog: bool
    var showCommunityModal: bool

    /** The feed's ids stay numbered 1..n and distinct. */
    ghost predicate Valid()
      reads this
    {
      NumberedIds(communityPosts) && UniqueIds(communityPosts)
    }

    /** The dashboard mounts with its seeded notifications (two unread) and two seeded posts. */
    constructor (universityName: string, userName: string)
      ensures Valid()
      ensures this.universityName == universityName && this.userName == userName
      ensures notifications == SeedNotifications && communityPosts == SeedPosts
      ensures |notifications| == 4 && UnreadCount(notifications) == 2
      ensures |communityPosts| == 2
      ensures offlineFormData == EmptyOfflineForm && !showAddOfflineDialog && !showCommunityModal
    {
      this.universityName := universityName;
      this.userName := userName;
      notifications := SeedNotifications;
      communityPosts := SeedPosts;
      offlineFormData := EmptyOfflineForm;
      showAddOfflineDialog, showCommunityModal := false, false;
      new;
      SeedFacts();
    }

    /** Clicking a notification marks it read. */
    method MarkNotificationAsRead(id: string)
      modifies this`notifications
      ensures notifications == MarkRead(old(notifications), id)
    {
      notifications := MarkRead(notifications, id);
    }

    method MarkAllAsRead()
      modifies this`notifications
      ensures notifications == MarkAllRead(old(notifications))
      ensures UnreadCount(notifications) == 0
    {
      notifications := MarkAllRead(notifications);
      MarkAllReadClearsBadge(old(notifications));
    }

    method SetShowCommunityModal(open: bool)
      modifies this`showCommunityModal
      ensures showCommunityModal == open
    {
      showCommunityModal := open;
    }

    /** The composer's `onPost`: the new post goes in front of the existing ones, which keep their order. */
    method HandleCommunityPost(post: PostDraft)
      requires Valid()
      modifies this`communityPosts
      ensures Valid()
      ensures communityPosts == [NewPost(post, |old(communityPosts)|, userName)] + old(communityPosts)
    {
      PrependKeepsIdsUnique(communityPosts, NewPost(post, |communityPosts|, userName));
      communityPosts := [NewPost(post, |communityPosts|, userName)] + communityPosts;
    }

    method SetShowAddOfflineDialog(open: bool)
      modifies this`showAddOfflineDialog
      ensures showAddOfflineDialog == open
    {
      showAddOfflineDialog := open;
    }

    method SetOfflineField(field: OfflineField, value: string)
      modifies this`offlineFormData
      ensures offlineFormData == match field
        case CompanyName => old(offlineFormData).(companyName := value)
        case Role => old(offlineFormData).(role := value)
        case StudentName => old(offlineFormData).(studentName := value)
        case Ctc => old(offlineFormData).(ctc := value)
    {
      match field
      case CompanyName => offlineFormData := offlineFormData.(companyName := value);
      case Role => offlineFormData := offlineFormData.(role := value);
      case StudentName => offlineFormData := offlineFormData.(studentName := value);
      case Ctc => offlineFormData := offlineFormData.(ctc := value);
    }

    /**
      * Recording an offline placement only logs the form, closes the dialog and
      * resets the form: no notification and no post is added.
      */
    method HandleAddOfflinePlacement() returns (logged: OfflineForm)
      modifies this`showAddOfflineDialog, this`offlineFormData
      ensures logged == old(offlineFormData)
      ensures !showAddOfflineDialog && offlineFormData == EmptyOfflineForm
      ensures notifications == old(notifications) && communityPosts == old(communityPosts)
    {
      logged := offlineFormData;
      showAddOfflineDialog := false;
      offlineFormData := EmptyOfflineForm;
    }
  }

  /**
    * A poll composed in the dialog and posted on the seeded dashboard becomes
    * post "3", at the top of the feed, with both options at zero votes and 0%.
    */
  method PollPostExample(question: string, first: string, second: string) returns (top: CommunityPost)
    requires Filled(question) && Filled(first) && Filled(second)
    ensures top.kind == Poll && top.content == question && top.id == "3"
    ensures top.pollOptions == Some([PollOption(first, 0), PollOption(second, 0)])
    ensures Shares(top.pollOptions.value) == [0.0, 0.0]
  {
    var posted, _ := PollComposeExample(question, first, second);
    var dashboard := new UniversityDashboard("Indian Institute of Technology, Delhi", "Dr. Rajesh Kumar");
    dashboard.HandleCommunityPost(posted.value);
    top := dashboard.communityPosts[0];
    assert NatToString(3) == "3";
    assert ZeroVotes([first, second]) == [PollOption(first, 0), PollOption(second, 0)];
    SharesSumTo100(top.pollOptions.value);
  }
}
