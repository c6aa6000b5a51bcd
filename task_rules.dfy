// The task tracker behind the Telegram bot, on values: the tasks by id, the
// next id to hand out, and the messages each command sends. The bot's
// handlers (task_bot.dfy) are proved to do what these functions say.
module TaskRules {
  import opened Outcomes
  import opened GoStrings
  import opened GoStrconv
  import opened MapIteration

  /** A Telegram user: the numeric id (also the id of their private chat)
      and the @-name. */
  datatype User = User(id: int, userName: string)

  /** A task; `assignee` is None while nobody has taken it. */
  datatype Task = Task(id: int, title: string, author: User, assignee: Option<User>)

  /** A message the bot sends to a chat. */
  datatype Message = Message(chat: int, text: string)

  /** The tracker: the tasks by id and the id the next task gets. */
  datatype Bot = Bot(tasks: map<int, Task>, nextId: int)

  /** What a command leaves behind: the tracker and the messages sent. */
  datatype Step = Step(bot: Bot, replies: seq<Message>)

  const NoTasks := "Нет задач"
  const NotYours := "Задача не на вас"
  const Accepted := "Принято"

  /** NewTaskBot: no tasks, and the first id is 1. */
  function NewBot(): Bot {
    Bot(map[], 1)
  }

  /** Every id is at least 1 and below the next id, and each task carries
      the id it is filed under. */
  predicate BotValid(b: Bot) {
    b.nextId >= 1 && forall id :: id in b.tasks ==> 1 <= id < b.nextId && b.tasks[id].id == id
  }

  // ---------------------------------------------------------------------
  // Replies

  function Created(title: string, id: int): string {
    "Задача \"" + title + "\" создана, id=" + Itoa(id)
  }

  function AssignedTo(title: string, userName: string): string {
    "Задача \"" + title + "\" назначена на @" + userName
  }

  function AssignedToYou(title: string): string {
    "Задача \"" + title + "\" назначена на вас"
  }

  function LeftUnassigned(title: string): string {
    "Задача \"" + title + "\" осталась без исполнителя"
  }

  function Resolved(title: string): string {
    "Задача \"" + title + "\" выполнена"
  }

  function ResolvedBy(title: string, userName: string): string {
    "Задача \"" + title + "\" выполнена @" + userName
  }

  // ---------------------------------------------------------------------
  // Commands that change the tracker

  /** handleNew: the task gets the next id, the sender as author and no
      assignee; the chat hears the id. */
  function New(b: Bot, chat: int, user: User, title: string): Step {
    Step(Bot(b.tasks[b.nextId := Task(b.nextId, title, user, None)], b.nextId + 1),
         [Message(chat, Created(title, b.nextId))])
  }

  /** handleAssign: an unknown id does nothing; otherwise a previous
      assignee other than the sender is told, the sender takes the task and
      hears so, and the author is told unless they are the sender. */
  function Assign(b: Bot, chat: int, user: User, id: int): Step {
    if id !in b.tasks then Step(b, [])
    else
      var t := b.tasks[id];
      var previous := if t.assignee.Some? && t.assignee.value.id != user.id
                      then [Message(t.assignee.value.id, AssignedTo(t.title, user.userName))] else [];
      var author := if t.author.id != user.id then [Message(t.author.id, AssignedTo(t.title, user.userName))] else [];
      Step(b.(tasks := b.tasks[id := t.(assignee := Some(user))]),
           previous + [Message(chat, AssignedToYou(t.title))] + author)
  }

  /** The task is assigned, to the user of this id. */
  predicate AssignedToUser(t: Task, userId: int) {
    t.assignee.Some? && t.assignee.value.id == userId
  }

  /** handleUnassign: an unknown id does nothing; only the assignee may
      give the task up; the author is told unless they are the sender. */
  function Unassign(b: Bot, chat: int, user: User, id: int): Step {
    if id !in b.tasks then Step(b, [])
    else
      var t := b.tasks[id];
      if !AssignedToUser(t, user.id) then Step(b, [Message(chat, NotYours)])
      else
        var author := if t.author.id != user.id then [Message(t.author.id, LeftUnassigned(t.title))] else [];
        Step(b.(tasks := b.tasks[id := t.(assignee := None)]), [Message(chat, Accepted)] + author)
  }

  /** handleResolve: an unknown id does nothing; otherwise anyone may
      resolve the task, the chat hears so, the author is told unless they
      are the sender, and the task is deleted. */
  function Resolve(b: Bot, chat: int, user: User, id: int): Step {
    if id !in b.tasks then Step(b, [])
    else
      var t := b.tasks[id];
      var author := if t.author.id != user.id then [Message(t.author.id, ResolvedBy(t.title, user.userName))] else [];
      Step(b.(tasks := b.tasks - {id}), [Message(chat, Resolved(t.title))] + author)
  }

  // ---------------------------------------------------------------------
  // Listings

  /** The three listings: every task, the sender's assignments, the tasks
      the sender wrote. */
  datatype View = AllTasks | Mine | Authored

  /** The first line of an entry: id, title and author. */
  function Heading(t: Task): string {
    Itoa(t.id) + ". " + t.title + " by @" + t.author.userName
  }

  /** The commands a listing offers, to be tapped in the chat. */
  function AssignCommand(id: int): string {
    "/assign_" + Itoa(id)
  }

  function UnassignCommand(id: int): string {
    "/unassign_" + Itoa(id)
  }

  function ResolveCommand(id: int): string {
    "/resolve_" + Itoa(id)
  }

  /** The line of commands offered to the assignee. */
  function ResolveCommands(id: int): string {
    "\n" + UnassignCommand(id) + " " + ResolveCommand(id)
  }

  /** Which tasks a listing shows. */
  predicate Listed(view: View, t: Task, userId: int) {
    match view
    case AllTasks => true
    case Mine => AssignedToUser(t, userId)
    case Authored => t.author.id == userId
  }

  /** A task's entry in a listing. */
  function Entry(view: View, t: Task, userId: int): string {
    match view
    case AllTasks =>
      if t.assignee.Some? then
        if t.assignee.value.id == userId then Heading(t) + "\nassignee: я" + ResolveCommands(t.id)
        else Heading(t) + "\nassignee: @" + t.assignee.value.userName
      else Heading(t) + ("\n" + AssignCommand(t.id))
    case Mine => Heading(t) + ResolveCommands(t.id)
    case Authored => if t.assignee.None? then Heading(t) + ("\n" + AssignCommand(t.id)) else Heading(t)
  }

  /** The entries of the listed tasks, in the order the ids are visited. */
  function Lines(tasks: map<int, Task>, order: seq<int>, view: View, userId: int): seq<string>
    requires forall i :: 0 <= i < |order| ==> order[i] in tasks
  {
    if |order| == 0 then []
    else
      var t := tasks[order[|order| - 1]];
      Lines(tasks, order[..|order| - 1], view, userId) + (if Listed(view, t, userId) then [Entry(view, t, userId)] else [])
  }

  /** The entries separated by blank lines, or "Нет задач" for none. */
  function Listing(lines: seq<string>): string {
    if |lines| == 0 then NoTasks else Join(lines, "\n\n")
  }

  /** The text starts with a digit or a minus sign, as printed numbers do. */
  predicate StartsNumeric(text: string) {
    |text| > 0 && (IsDigit(text[0]) || text[0] == '-')
  }

  /** Every entry starts with its task's id. */
  lemma EntryStartsNumeric(view: View, t: Task, userId: int)
    ensures StartsNumeric(Entry(view, t, userId))
  {
    var h := Heading(t);
    assert h[0] == Itoa(t.id)[0];
    assert Entry(view, t, userId)[0] == h[0];
  }

  /** A listing has one entry per visited task it shows: none exactly when
      no task is shown, one per task for the full listing; each entry
      starts with its task's id. */
  lemma {:induction false} LinesCount(tasks: map<int, Task>, order: seq<int>, view: View, userId: int)
    requires forall i :: 0 <= i < |order| ==> order[i] in tasks
    ensures var lines := Lines(tasks, order, view, userId);
            && (|lines| == 0 <==> forall i :: 0 <= i < |order| ==> !Listed(view, tasks[order[i]], userId))
            && (view == AllTasks ==> |lines| == |order|)
            && forall k :: 0 <= k < |lines| ==> StartsNumeric(lines[k])
    decreases |order|
  {
    if |order| > 0 {
      var pre, t := order[..|order| - 1], tasks[order[|order| - 1]];
      assert forall i :: 0 <= i < |pre| ==> pre[i] == order[i];
      LinesCount(tasks, pre, view, userId);
      EntryStartsNumeric(view, t, userId);
      var last := if Listed(view, t, userId) then [Entry(view, t, userId)] else [];
      assert Lines(tasks, order, view, userId) == Lines(tasks, pre, view, userId) + last;
    }
  }

  /** Each entry begins with its task's heading and then has the lines the
      view adds for it. */
  lemma EntryShape(view: View, t: Task, userId: int)
    ensures var e := Entry(view, t, userId);
            && HasPrefix(e, Heading(t))
            && e[|Heading(t)|..] ==
                 match view
                 case AllTasks =>
                   if AssignedToUser(t, userId) then "\nassignee: я" + ResolveCommands(t.id)
                   else if t.assignee.Some? then "\nassignee: @" + t.assignee.value.userName
                   else "\n" + AssignCommand(t.id)
                 case Mine => ResolveCommands(t.id)
                 case Authored => if t.assignee.None? then "\n" + AssignCommand(t.id) else ""
  {
    var h := Heading(t);
    match view
    case AllTasks =>
      if AssignedToUser(t, userId) {
        assert h + "\nassignee: я" + ResolveCommands(t.id) == h + ("\nassignee: я" + ResolveCommands(t.id));
        PrefixOfConcat(h, "\nassignee: я" + ResolveCommands(t.id));
      } else if t.assignee.Some? {
        assert h + "\nassignee: @" + t.assignee.value.userName == h + ("\nassignee: @" + t.assignee.value.userName);
        PrefixOfConcat(h, "\nassignee: @" + t.assignee.value.userName);
      } else {
        PrefixOfConcat(h, "\n" + AssignCommand(t.id));
      }
    case Mine =>
      PrefixOfConcat(h, ResolveCommands(t.id));
    case Authored =>
      if t.assignee.None? {
        PrefixOfConcat(h, "\n" + AssignCommand(t.id));
      } else {
        PrefixOfConcat(h, "");
      }
  }

  /** The entries of a listing are exactly those of the visited tasks the
      view shows, in visiting order. */
  lemma {:induction false} LinesMeaning(tasks: map<int, Task>, order: seq<int>, view: View, userId: int)
    requires forall i :: 0 <= i < |order| ==> order[i] in tasks
    ensures forall line :: line in Lines(tasks, order, view, userId) <==>
              exists i :: 0 <= i < |order| && Listed(view, tasks[order[i]], userId) &&
                          line == Entry(view, tasks[order[i]], userId)
    decreases |order|
  {
    if |order| > 0 {
      var init := order[..|order| - 1];
      LinesMeaning(tasks, init, view, userId);
      forall line | line in Lines(tasks, order, view, userId)
        ensures exists i :: 0 <= i < |order| && Listed(view, tasks[order[i]], userId) &&
                            line == Entry(view, tasks[order[i]], userId)
      {
        if line in Lines(tasks, init, view, userId) {
          var i :| 0 <= i < |init| && Listed(view, tasks[init[i]], userId) && line == Entry(view, tasks[init[i]], userId);
          assert order[i] == init[i];
        } else {
          assert Listed(view, tasks[order[|order| - 1]], userId);
        }
      }
      forall i | 0 <= i < |order| && Listed(view, tasks[order[i]], userId)
        ensures Entry(view, tasks[order[i]], userId) in Lines(tasks, order, view, userId)
      {
        if i < |init| {
          assert order[i] == init[i];
        }
      }
    }
  }

  /** A listing over all the tasks says "Нет задач" exactly when no task
      is shown. */
  lemma ListingEmpty(tasks: map<int, Task>, order: seq<int>, view: View, userId: int)
    requires Enumerates(order, tasks.Keys)
    ensures Listing(Lines(tasks, order, view, userId)) == NoTasks <==>
              forall id :: id in tasks ==> !Listed(view, tasks[id], userId)
  {
    LinesCount(tasks, order, view, userId);
    var lines := Lines(tasks, order, view, userId);
    if |lines| > 0 {
      var text := Join(lines, "\n\n");
      assert text[0] == lines[0][0];
      assert NoTasks[0] == 'Н';
    }
  }

  // ---------------------------------------------------------------------
  // What the commands keep and change

  /** A new task gets a fresh id (1 for the first), is stored under it with
      the sender as author and nobody assigned, and the tasks before it are
      untouched. */
  lemma NewTaskFresh(b: Bot, chat: int, user: User, title: string)
    requires BotValid(b)
    ensures var after := New(b, chat, user, title).bot;
            && b.nextId !in b.tasks
            && after.tasks.Keys == b.tasks.Keys + {b.nextId}
            && after.tasks[b.nextId] == Task(b.nextId, title, user, None)
            && (forall id :: id in b.tasks ==> after.tasks[id] == b.tasks[id])
            && after.nextId == b.nextId + 1
            && BotValid(after)
    ensures b == NewBot() ==> New(b, chat, user, title).bot.tasks.Keys == {1}
  {
  }

  /** Assigning, giving up and resolving keep the tracker valid, keep the
      next id, and change at most the task named. */
  lemma ChangesKeep(b: Bot, chat: int, user: User, id: int)
    requires BotValid(b)
    ensures forall after :: after in [Assign(b, chat, user, id).bot, Unassign(b, chat, user, id).bot, Resolve(b, chat, user, id).bot] ==>
              && BotValid(after) && after.nextId == b.nextId && after.tasks.Keys <= b.tasks.Keys
              && forall other :: other in b.tasks && other != id ==> other in after.tasks && after.tasks[other] == b.tasks[other]
  {
  }

  /** An id that names no task changes nothing and sends nothing; a valid
      tracker has no task 0, which is what a malformed id reads as. */
  lemma UnknownIdIgnored(b: Bot, chat: int, user: User, id: int)
    requires id !in b.tasks
    ensures Assign(b, chat, user, id) == Step(b, [])
    ensures Unassign(b, chat, user, id) == Step(b, [])
    ensures Resolve(b, chat, user, id) == Step(b, [])
    ensures BotValid(b) ==> 0 !in b.tasks
  {
  }

  /** Taking a task and giving it up again leaves it unassigned, with the
      author told each time unless they are the one who took it. */
  lemma AssignThenUnassign(b: Bot, chat: int, user: User, id: int)
    requires id in b.tasks
    ensures var t := b.tasks[id];
            var back := Unassign(Assign(b, chat, user, id).bot, chat, user, id);
            && back.bot == b.(tasks := b.tasks[id := t.(assignee := None)])
            && back.replies == [Message(chat, Accepted)] +
                               (if t.author.id != user.id then [Message(t.author.id, LeftUnassigned(t.title))] else [])
  {
  }

  /** Only the assignee can give a task up; anyone else just hears that it
      is not theirs. */
  lemma UnassignByOther(b: Bot, chat: int, user: User, id: int)
    requires id in b.tasks && !AssignedToUser(b.tasks[id], user.id)
    ensures Unassign(b, chat, user, id) == Step(b, [Message(chat, NotYours)])
  {
  }

  /** Anyone can resolve a task: who resolves it changes only the author's
      notice, never the tracker; the task is gone afterwards. */
  lemma ResolveByAnyone(b: Bot, chat: int, user: User, other: User, id: int)
    ensures Resolve(b, chat, user, id).bot == Resolve(b, chat, other, id).bot
    ensures id !in Resolve(b, chat, user, id).bot.tasks
    ensures id in b.tasks ==> Resolve(b, chat, user, id).replies[0] == Message(chat, Resolved(b.tasks[id].title))
  {
  }

  /** The sender always hears that they took the task; a previous assignee
      and the author are told only when they are someone else. */
  lemma AssignNotices(b: Bot, chat: int, user: User, id: int)
    requires id in b.tasks
    ensures var t := b.tasks[id];
            var replies := Assign(b, chat, user, id).replies;
            var told := if t.assignee.Some? && t.assignee.value.id != user.id then 1 else 0;
            && |replies| == told + 1 + (if t.author.id != user.id then 1 else 0)
            && replies[told] == Message(chat, AssignedToYou(t.title))
            && (t.author.id != user.id ==> replies[|replies| - 1] == Message(t.author.id, AssignedTo(t.title, user.userName)))
            && Assign(b, chat, user, id).bot.tasks[id].assignee == Some(user)
  {
  }

  // ---------------------------------------------------------------------
  // The message dispatch

  /** What a message asks for. */
  datatype Command =
    | ListAll
    | NewTask(title: string)
    | AssignTask(id: int)
    | UnassignTask(id: int)
    | ResolveTask(id: int)
    | ListMine
    | ListAuthored
    | Ignored

  /** HandleMessage's dispatch: by prefix, in a fixed order, the first
      match wins; an id is the number after its prefix, 0 if it is none. */
  function Parse(text: string): Command {
    if HasPrefix(text, "/tasks") then ListAll
    else if HasPrefix(text, "/new ") then NewTask(text[5..])
    else if HasPrefix(text, "/assign_") then AssignTask(AtoiValue(text[8..]))
    else if HasPrefix(text, "/unassign_") then UnassignTask(AtoiValue(text[10..]))
    else if HasPrefix(text, "/resolve_") then ResolveTask(AtoiValue(text[9..]))
    else if HasPrefix(text, "/my") then ListMine
    else if HasPrefix(text, "/owner") then ListAuthored
    else Ignored
  }

  /** The tracker after one command; `order` is the order in which a
      listing visits the tasks. */
  function Respond(b: Bot, chat: int, user: User, cmd: Command, order: seq<int>): Step
    requires Enumerates(order, b.tasks.Keys)
  {
    match cmd
    case ListAll => Step(b, [Message(chat, Listing(Lines(b.tasks, order, AllTasks, user.id)))])
    case NewTask(title) => New(b, chat, user, title)
    case AssignTask(id) => Assign(b, chat, user, id)
    case UnassignTask(id) => Unassign(b, chat, user, id)
    case ResolveTask(id) => Resolve(b, chat, user, id)
    case ListMine => Step(b, [Message(chat, Listing(Lines(b.tasks, order, Mine, user.id)))])
    case ListAuthored => Step(b, [Message(chat, Listing(Lines(b.tasks, order, Authored, user.id)))])
    case Ignored => Step(b, [])
  }

  /** Each prefix picks its command, whatever follows it; the text after
      the prefix is the title or the id. The prefixes tried before it differ
      from it in their second character. */
  lemma ParsePrefixes(suffix: string)
    ensures Parse("/tasks" + suffix) == ListAll
    ensures Parse("/new " + suffix) == NewTask(suffix)
    ensures Parse("/assign_" + suffix) == AssignTask(AtoiValue(suffix))
    ensures Parse("/unassign_" + suffix) == UnassignTask(AtoiValue(suffix))
    ensures Parse("/resolve_" + suffix) == ResolveTask(AtoiValue(suffix))
    ensures Parse("/my" + suffix) == ListMine
    ensures Parse("/owner" + suffix) == ListAuthored
  {
    ParseTasks(suffix);
    ParseNew(suffix);
    ParseAssign(suffix);
    ParseUnassign(suffix);
    ParseResolve(suffix);
    ParseMy(suffix);
    ParseOwner(suffix);
  }

  lemma ParseTasks(suffix: string)
    ensures Parse("/tasks" + suffix) == ListAll
  {
    var text := "/tasks" + suffix;
    PrefixOfConcat("/tasks", suffix);
    assert text[1] == 't';
  }

  lemma ParseNew(suffix: string)
    ensures Parse("/new " + suffix) == NewTask(suffix)
  {
    var text := "/new " + suffix;
    PrefixOfConcat("/new ", suffix);
    assert text[1] == 'n';
    PrefixChars(text, "/tasks");
  }

  lemma ParseAssign(suffix: string)
    ensures Parse("/assign_" + suffix) == AssignTask(AtoiValue(suffix))
  {
    var text := "/assign_" + suffix;
    PrefixOfConcat("/assign_", suffix);
    assert text[1] == 'a';
    PrefixChars(text, "/tasks");
    PrefixChars(text, "/new ");
  }

  lemma ParseUnassign(suffix: string)
    ensures Parse("/unassign_" + suffix) == UnassignTask(AtoiValue(suffix))
  {
    var text := "/unassign_" + suffix;
    PrefixOfConcat("/unassign_", suffix);
    assert text[1] == 'u';
    PrefixChars(text, "/tasks");
    PrefixChars(text, "/new ");
    PrefixChars(text, "/assign_");
  }

  lemma ParseResolve(suffix: string)
    ensures Parse("/resolve_" + suffix) == ResolveTask(AtoiValue(suffix))
  {
    var text := "/resolve_" + suffix;
    PrefixOfConcat("/resolve_", suffix);
    assert text[1] == 'r';
    PrefixChars(text, "/tasks");
    PrefixChars(text, "/new ");
    PrefixChars(text, "/assign_");
    PrefixChars(text, "/unassign_");
  }

  lemma ParseMy(suffix: string)
    ensures Parse("/my" + suffix) == ListMine
  {
    var text := "/my" + suffix;
    PrefixOfConcat("/my", suffix);
    assert text[1] == 'm';
    PrefixChars(text, "/tasks");
    PrefixChars(text, "/new ");
    PrefixChars(text, "/assign_");
    PrefixChars(text, "/unassign_");
    PrefixChars(text, "/resolve_");
  }

  lemma ParseOwner(suffix: string)
    ensures Parse("/owner" + suffix) == ListAuthored
  {
    var text := "/owner" + suffix;
    PrefixOfConcat("/owner", suffix);
    assert text[1] == 'o';
    PrefixChars(text, "/tasks");
    PrefixChars(text, "/new ");
    PrefixChars(text, "/assign_");
    PrefixChars(text, "/unassign_");
    PrefixChars(text, "/resolve_");
    PrefixChars(text, "/my");
  }

  /** The commands a listing offers parse back to the command for that
      task. */
  lemma ParseOffered(id: int)
    requires InIntRange(id)
    ensures Parse(AssignCommand(id)) == AssignTask(id)
    ensures Parse(UnassignCommand(id)) == UnassignTask(id)
    ensures Parse(ResolveCommand(id)) == ResolveTask(id)
  {
    AtoiItoa(id);
    ParsePrefixes(Itoa(id));
  }

  /** An id of more than 2^64-1 in digits followed by junk names the
      largest task id: Atoi's error is ignored and its value is the bound. */
  lemma OverflowingIdClamps(n: nat, c: char, rest: string)
    requires n > MaxUint64 && !IsDigit(c)
    ensures Parse("/assign_" + (Digits(n) + [c] + rest)) == AssignTask(MaxInt)
    ensures Parse("/unassign_" + (Digits(n) + [c] + rest)) == UnassignTask(MaxInt)
    ensures Parse("/resolve_" + (Digits(n) + [c] + rest)) == ResolveTask(MaxInt)
  {
    OverflowBeforeJunk(n, c, rest);
    ParsePrefixes(Digits(n) + [c] + rest);
  }

  /** A malformed id after /assign_, /unassign_ or /resolve_ reads as 0, so
      on a valid tracker the command does nothing at all. */
  lemma MalformedIdIgnored(b: Bot, chat: int, user: User, prefix: string, suffix: string, order: seq<int>)
    requires BotValid(b) && Enumerates(order, b.tasks.Keys)
    requires prefix in ["/assign_", "/unassign_", "/resolve_"] && AtoiValue(suffix) == 0
    ensures Respond(b, chat, user, Parse(prefix + suffix), order) == Step(b, [])
  {
    ParsePrefixes(suffix);
    UnknownIdIgnored(b, chat, user, 0);
  }

  /** Commands that only list leave the tracker as it is; an ignored
      message sends nothing. */
  lemma ListingsReadOnly(b: Bot, chat: int, user: User, cmd: Command, order: seq<int>)
    requires Enumerates(order, b.tasks.Keys)
    ensures cmd in [ListAll, ListMine, ListAuthored, Ignored] ==> Respond(b, chat, user, cmd, order).bot == b
    ensures cmd == Ignored ==> Respond(b, chat, user, cmd, order).replies == []
  {
  }

  /** Every command keeps the tracker valid. */
  lemma RespondKeeps(b: Bot, chat: int, user: User, cmd: Command, order: seq<int>)
    requires BotValid(b) && Enumerates(order, b.tasks.Keys)
    ensures BotValid(Respond(b, chat, user, cmd, order).bot)
  {
    match cmd
    case NewTask(title) => NewTaskFresh(b, chat, user, title);
    case AssignTask(id) => ChangesKeep(b, chat, user, id);
    case UnassignTask(id) => ChangesKeep(b, chat, user, id);
    case ResolveTask(id) => ChangesKeep(b, chat, user, id);
    case _ =>
  }
}
