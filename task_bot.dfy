// The Telegram task bot: the tasks by id, the next id, and the messages
// handed to the Telegram API, updated by the handlers in place. Each handler
// is proved to leave the tracker and the outbox as the matching function of
// TaskRules says.
module TaskBotServer {
  import opened Outcomes
  import opened GoStrings
  import opened GoStrconv
  import opened MapIteration
  import opened TaskRules

  /** An update that carries a message: the sender, the chat and the text. */
  datatype Incoming = Incoming(from: User, chat: int, text: string)

  class TaskBot {
    var tasks: map<int, Task>
    var nextId: int
    /** The messages sent through the Telegram API, oldest first. */
    var sent: seq<Message>

    ghost function State(): Bot
      reads this
    {
      Bot(tasks, nextId)
    }

    /** NewTaskBot: no tasks, the first id is 1, nothing sent. */
    constructor ()
      ensures State() == NewBot() && sent == []
    {
      tasks := map[];
      nextId := 1;
      sent := [];
    }

    /** sendMessage: the message goes out to the chat. */
    method SendMessage(chat: int, text: string)
      modifies this`sent
      ensures sent == old(sent) + [Message(chat, text)]
    {
      sent := sent + [Message(chat, text)];
    }

    /** handleNew: file the task under the next id and say so. */
    method HandleNew(chat: int, user: User, title: string)
      modifies this
      ensures var step := New(old(State()), chat, user, title);
              State() == step.bot && sent == old(sent) + step.replies
    {
      var task := Task(nextId, title, user, None);
      tasks := tasks[nextId := task];
      SendMessage(chat, Created(title, nextId));
      nextId := nextId + 1;
    }

    /** handleAssign: the sender takes the task; the previous assignee and
        the author hear of it. */
    method HandleAssign(chat: int, user: User, id: int)
      modifies this
      ensures var step := Assign(old(State()), chat, user, id);
              State() == step.bot && sent == old(sent) + step.replies
    {
      if id !in tasks {
        return;
      }
      var task := tasks[id];
      if task.assignee.Some? && task.assignee.value.id != user.id {
        SendMessage(task.assignee.value.id, AssignedTo(task.title, user.userName));
      }
      tasks := tasks[id := task.(assignee := Some(user))];
      SendMessage(chat, AssignedToYou(task.title));
      if task.author.id != user.id {
        SendMessage(task.author.id, AssignedTo(task.title, user.userName));
      }
    }

    /** handleUnassign: only the assignee may give the task up. */
    method HandleUnassign(chat: int, user: User, id: int)
      modifies this
      ensures var step := Unassign(old(State()), chat, user, id);
              State() == step.bot && sent == old(sent) + step.replies
    {
      if id !in tasks {
        return;
      }
      var task := tasks[id];
      if task.assignee.None? || task.assignee.value.id != user.id {
        SendMessage(chat, NotYours);
        return;
      }
      tasks := tasks[id := task.(assignee := None)];
      SendMessage(chat, Accepted);
      if task.author.id != user.id {
        SendMessage(task.author.id, LeftUnassigned(task.title));
      }
    }

    /** handleResolve: the chat and the author hear of it, and the task is
        deleted. */
    method HandleResolve(chat: int, user: User, id: int)
      modifies this
      ensures var step := Resolve(old(State()), chat, user, id);
              State() == step.bot && sent == old(sent) + step.replies
    {
      if id !in tasks {
        return;
      }
      var task := tasks[id];
      SendMessage(chat, Resolved(task.title));
      if task.author.id != user.id {
        SendMessage(task.author.id, ResolvedBy(task.title, user.userName));
      }
      tasks := tasks - {id};
    }

    /** handleTasks: every task, with the commands that apply to the
        sender, in the map's order; "Нет задач" when there is none. */
    method HandleTasks(chat: int, userId: int) returns (ghost order: seq<int>)
      modifies this`sent
      ensures Enumerates(order, tasks.Keys)
      ensures sent == old(sent) + [Message(chat, Listing(Lines(tasks, order, AllTasks, userId)))]
    {
      order := [];
      if |tasks| == 0 {
        assert tasks.Keys == {};
        SendMessage(chat, NoTasks);
        return;
      }
      var result := [];
      var rest := tasks.Keys;
      while rest != {}
        invariant rest <= tasks.Keys && sent == old(sent)
        invariant forall i :: 0 <= i < |order| ==> order[i] in tasks && order[i] !in rest
        invariant forall k :: k in tasks ==> k in rest || k in order
        invariant forall i, j :: 0 <= i < j < |order| ==> order[i] != order[j]
        invariant result == Lines(tasks, order, AllTasks, userId) && |result| + |rest| == |tasks|
        decreases |rest|
      {
        var id := Pick(rest);
        var task := tasks[id];
        var line := Heading(task);
        if task.assignee.Some? {
          if task.assignee.value.id == userId {
            line := line + "\nassignee: я";
            line := line + ResolveCommands(task.id);
          } else {
            line := line + "\nassignee: @" + task.assignee.value.userName;
          }
        } else {
          line := line + ("\n" + AssignCommand(task.id));
        }
        result := result + [line];
        assert (order + [id])[..|order|] == order;
        order := order + [id];
        rest := rest - {id};
      }
      SendMessage(chat, Join(result, "\n\n"));
    }

    /** handleMy: the tasks assigned to the sender. */
    method HandleMy(chat: int, userId: int) returns (ghost order: seq<int>)
      modifies this`sent
      ensures Enumerates(order, tasks.Keys)
      ensures sent == old(sent) + [Message(chat, Listing(Lines(tasks, order, Mine, userId)))]
    {
      order := [];
      var result := [];
      var rest := tasks.Keys;
      while rest != {}
        invariant rest <= tasks.Keys && sent == old(sent)
        invariant forall i :: 0 <= i < |order| ==> order[i] in tasks && order[i] !in rest
        invariant forall k :: k in tasks ==> k in rest || k in order
        invariant forall i, j :: 0 <= i < j < |order| ==> order[i] != order[j]
        invariant result == Lines(tasks, order, Mine, userId)
        decreases |rest|
      {
        var id := Pick(rest);
        var task := tasks[id];
        if task.assignee.Some? && task.assignee.value.id == userId {
          var line := Heading(task);
          line := line + ResolveCommands(task.id);
          result := result + [line];
        }
        assert (order + [id])[..|order|] == order;
        order := order + [id];
        rest := rest - {id};
      }
      if |result| == 0 {
        SendMessage(chat, NoTasks);
        return;
      }
      SendMessage(chat, Join(result, "\n\n"));
    }

    /** handleOwner: the tasks the sender wrote, with the assign command on
        those nobody has taken. */
    method HandleOwner(chat: int, userId: int) returns (ghost order: seq<int>)
      modifies this`sent
      ensures Enumerates(order, tasks.Keys)
      ensures sent == old(sent) + [Message(chat, Listing(Lines(tasks, order, Authored, userId)))]
    {
      order := [];
      var result := [];
      var rest := tasks.Keys;
      while rest != {}
        invariant rest <= tasks.Keys && sent == old(sent)
        invariant forall i :: 0 <= i < |order| ==> order[i] in tasks && order[i] !in rest
        invariant forall k :: k in tasks ==> k in rest || k in order
        invariant forall i, j :: 0 <= i < j < |order| ==> order[i] != order[j]
        invariant result == Lines(tasks, order, Authored, userId)
        decreases |rest|
      {
        var id := Pick(rest);
        var task := tasks[id];
        if task.author.id == userId {
          var line := Heading(task);
          if task.assignee.None? {
            line := line + ("\n" + AssignCommand(task.id));
          }
          result := result + [line];
        }
        assert (order + [id])[..|order|] == order;
        order := order + [id];
        rest := rest - {id};
      }
      if |result| == 0 {
        SendMessage(chat, NoTasks);
        assert sent == old(sent) + [Message(chat, NoTasks)];
        return;
      }
      SendMessage(chat, Join(result, "\n\n"));
    }

    /** HandleMessage: an update without a message is ignored; otherwise the
        text picks the handler by its prefix, and the tracker and outbox
        change as Respond says for the order the listing visited. */
    method HandleMessage(update: Option<Incoming>) returns (ghost order: seq<int>)
      modifies this
      ensures update.None? ==> State() == old(State()) && sent == old(sent)
      ensures update.Some? ==>
                && Enumerates(order, old(tasks).Keys)
                && var m := update.value;
                   var step := Respond(old(State()), m.chat, m.from, Parse(m.text), order);
                   State() == step.bot && sent == old(sent) + step.replies
    {
      order := [];
      if update.None? {
        return;
      }
      var m := update.value;
      var user, chat, text := m.from, m.chat, m.text;
      order := Enumerable(tasks.Keys);
      if HasPrefix(text, "/tasks") {
        order := HandleTasks(chat, user.id);
      } else if HasPrefix(text, "/new ") {
        HandleNew(chat, user, text[5..]);
      } else if HasPrefix(text, "/assign_") {
        var id := AtoiValue(text[8..]);
        HandleAssign(chat, user, id);
      } else if HasPrefix(text, "/unassign_") {
        var id := AtoiValue(text[10..]);
        HandleUnassign(chat, user, id);
      } else if HasPrefix(text, "/resolve_") {
        var id := AtoiValue(text[9..]);
        HandleResolve(chat, user, id);
      } else if HasPrefix(text, "/my") {
        order := HandleMy(chat, user.id);
      } else if HasPrefix(text, "/owner") {
        order := HandleOwner(chat, user.id);
      }
    }
  }
}
