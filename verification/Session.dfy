/** The session object: the imperative code behind SessionSteps, one method per stretch between suspension points. */
module Session {
  import opened Bytes
  import opened Common
  import opened CloseableQueue
  import Out = OutboundQueue
  import Recv = ReceiveBuffer
  import P = PacketCodec
  import G = GameplayPayload
  import R = Room
  import S = SessionSteps

  class Session {
    const id: R.SessionId
    const receive: Recv.ReceiveBuffer
    const outbound: Out.OutboundQueue
    const commands: CloseableQueue<R.Command>
    var joined: bool
    var writeInProgress: bool
    var stopped: bool
    /** What the fields and buffers stand for, with the history that no field keeps. */
    ghost var model: S.Session
    /** The commands of this session that the command queue took. */
    ghost var submitted: seq<R.Command>

    ghost predicate Valid()
      reads this, receive, receive.storage, outbound
    {
      && receive.Valid() && outbound.Valid()
      && receive.limit == S.BUFFER_LIMIT && outbound.limit == S.OUTBOUND_LIMIT
      && outbound.closed == stopped
      && model.inbox == receive.Readable() && model.queue == outbound.packets
      && FlagsAgree()
    }

    ghost predicate FlagsAgree()
      reads this
    {
      && model.id == id && model.joined == joined
      && model.writeInProgress == writeInProgress && model.stopped == stopped
    }

    /** The commands a queue holds after some attempted submissions. */
    function Submitted(before: seq<R.Command>, attempted: seq<R.Command>): seq<R.Command>
      reads commands
    {
      if commands.closed then before else before + attempted
    }

    /** The attempted commands went to the queue, and count as submitted, exactly if it is open. */
    ghost predicate Sent(values: seq<R.Command>, mine: seq<R.Command>, attempted: seq<R.Command>)
      reads this`submitted, commands
    {
      commands.values == Submitted(values, attempted) && submitted == Submitted(mine, attempted)
    }

    constructor (id: R.SessionId, commands: CloseableQueue<R.Command>)
      ensures Valid() && model == S.NewSession(id) && this.commands == commands && submitted == []
      ensures fresh(receive) && fresh(receive.storage) && fresh(outbound)
    {
      this.id := id;
      this.commands := commands;
      receive := new Recv.ReceiveBuffer(S.BUFFER_LIMIT, 0x1000);
      outbound := new Out.OutboundQueue(S.OUTBOUND_LIMIT);
      joined, writeInProgress, stopped := false, false, false;
      model, submitted := S.NewSession(id), [];
    }

    method SubmitRoomCommand(command: R.Command) returns (ok: bool)
      modifies this`submitted, commands
      ensures commands.closed == old(commands.closed) && ok == !commands.closed
      ensures Sent(old(commands.values), old(submitted), [command])
    {
      ok := commands.Push(command);
      if ok {
        submitted := submitted + [command];
      }
    }

    method LeaveRoomIfJoined(reason: R.Reason)
      requires FlagsAgree()
      modifies this`joined, this`model, this`submitted, commands
      ensures FlagsAgree() && commands.closed == old(commands.closed)
      ensures model == S.LeaveIfJoined(old(model), reason).session
      ensures Sent(old(commands.values), old(submitted), S.LeaveIfJoined(old(model), reason).attempted)
    {
      NothingSent();
      model := S.LeaveIfJoined(model, reason).session;
      var wasJoined := joined;
      joined := false;
      if !wasJoined {
        return;
      }
      var _ := SubmitRoomCommand(R.Leave(id, reason));
    }

    lemma NothingSent()
      ensures Sent(commands.values, submitted, [])
    {
      assert commands.values + [] == commands.values && submitted + [] == submitted;
    }

    method StopSession(reason: R.Reason)
      requires Valid()
      modifies this`joined, this`stopped, this`model, this`submitted, commands, outbound
      ensures Valid() && commands.closed == old(commands.closed)
      ensures model == S.Stop(old(model), reason).session
      ensures Sent(old(commands.values), old(submitted), S.Stop(old(model), reason).attempted)
    {
      NothingSent();
      if stopped {
        return;
      }
      stopped := true;
      model := model.(stopped := true);
      LeaveRoomIfJoined(reason);
      outbound.Close();
      model := model.(queue := []);
    }

    method EnqueueOutbound(packet: Out.Packet) returns (ok: bool)
      requires Valid()
      modifies this, commands, outbound
      ensures Valid() && commands.closed == old(commands.closed)
      ensures model == S.Enqueue(old(model), packet).0.session && ok == S.Enqueue(old(model), packet).1
      ensures Sent(old(commands.values), old(submitted), S.Enqueue(old(model), packet).0.attempted)
    {
      hide S.Stop, Sent;
      NothingSent();
      if stopped {
        return false;
      }
      var pushed := outbound.Push(Some(packet));
      if pushed.Failure? {
        if pushed.error == Out.ByteLimitExceeded {
          StopSession(R.OutboundOverflow);
        } else {
          StopSession(R.IoError);
        }
        return false;
      }
      model := S.Enqueue(model, packet).0.session;
      if !writeInProgress {
        writeInProgress := true;
      }
      ok := true;
    }

    /** The head of the writer loop: fetch the next batch into the coroutine's own array, or end. */
    method WriterTurn() returns (packets: array<Out.Packet>, count: nat)
      requires Valid() && model.writers > 0
      modifies this`writeInProgress, this`model, outbound
      ensures Valid() && fresh(packets)
      ensures model == S.WriterTurn(old(model))
      ensures count <= packets.Length && (count > 0 ==> packets[..count] == model.batch)
      ensures count == 0 <==> model.writers < old(model.writers)
    {
      packets := new Out.Packet[S.BATCH_PACKETS](_ => []);
      model := S.WriterTurn(model);
      if stopped {
        writeInProgress := false;
        return packets, 0;
      }
      count := outbound.PopBatch(packets, S.BATCH_BYTES);
      if count == 0 {
        writeInProgress := false;
      }
    }

    method WriteCompleted(transferred: nat, failed: bool)
      requires Valid() && model.writers > 0 && transferred <= |Flatten(model.batch)|
      modifies this, commands, outbound
      ensures Valid() && commands.closed == old(commands.closed)
      ensures model == S.WriteCompleted(old(model), transferred, failed).session
      ensures Sent(old(commands.values), old(submitted), S.WriteCompleted(old(model), transferred, failed).attempted)
    {
      hide S.Stop, S.WriterTurn, Sent;
      NothingSent();
      model := S.Transferred(model, transferred, failed);
      if failed {
        writeInProgress := false;
        StopSession(R.IoError);
      } else {
        var packets, count := WriterTurn();
      }
    }

    method RejectProtocol() returns (verdict: S.Verdict)
      requires Valid()
      modifies this, commands, outbound
      ensures Valid() && commands.closed == old(commands.closed)
      ensures model == S.Reject(old(model)).0.session && verdict == S.Reject(old(model)).1
      ensures Sent(old(commands.values), old(submitted), S.Reject(old(model)).0.attempted)
    {
      StopSession(R.ProtocolError);
      verdict := S.Done(false);
    }

    method ConsumePacket(view: P.PacketView)
      requires Valid() && view.consumed <= |receive.Readable()|
      modifies this`model, receive
      ensures Valid() && receive.storage == old(receive.storage)
      ensures model == S.Consume(old(model), view)
    {
      model := S.Consume(model, view);
      receive.Consume(view.consumed);
    }

    /** What the Join and Move cases share: a refused command stops the session. */
    method SubmitOrStop(command: R.Command) returns (ok: bool)
      requires Valid()
      modifies this, commands, outbound
      ensures Valid() && commands.closed == old(commands.closed) && ok == !commands.closed
      ensures if ok then model == old(model) && Sent(old(commands.values), old(submitted), [command])
              else var stop := S.Stop(old(model), R.ServerShutdown);
                model == stop.session && Sent(old(commands.values), old(submitted), [command] + stop.attempted)
    {
      hide S.Stop;
      ok := SubmitRoomCommand(command);
      if !ok {
        StopSession(R.ServerShutdown);
      }
    }

    /** The handlers below are the cases of the packet switch. */

    method HandlePing(view: P.PacketView) returns (verdict: S.Verdict)
      requires Valid() && view.packetType.Ping? && view.consumed <= |receive.Readable()|
      requires |view.payload| <= P.MAX_PAYLOAD
      modifies this, receive, commands, outbound
      ensures Valid() && commands.closed == old(commands.closed) && receive.storage == old(receive.storage)
      ensures Handled(old(model), old(commands.values), old(submitted), view, verdict)
    {
      hide S.Enqueue, Sent;
      var response := P.EncodePacket(P.Code(P.Ping), view.payload);
      ConsumePacket(view);
      var ok := EnqueueOutbound(response.value);
      verdict := if ok then S.More else S.Done(false);
    }

    method HandleJoin(view: P.PacketView) returns (verdict: S.Verdict)
      requires Valid() && view.packetType.JoinRoom? && view.consumed <= |receive.Readable()|
      modifies this, receive, commands, outbound
      ensures Valid() && commands.closed == old(commands.closed) && receive.storage == old(receive.storage)
      ensures Handled(old(model), old(commands.values), old(submitted), view, verdict)
    {
      hide S.Stop, Sent;
      if view.payload != [] || joined {
        verdict := RejectProtocol();
        return;
      }
      var ok := SubmitOrStop(R.Join(id));
      if !ok {
        return S.Done(false);
      }
      joined := true;
      model := model.(joined := true, joins := model.joins + 1);
      ConsumePacket(view);
      verdict := S.More;
    }

    method HandleMove(view: P.PacketView) returns (verdict: S.Verdict)
      requires Valid() && view.packetType.Move? && view.consumed <= |receive.Readable()|
      modifies this, receive, commands, outbound
      ensures Valid() && commands.closed == old(commands.closed) && receive.storage == old(receive.storage)
      ensures Handled(old(model), old(commands.values), old(submitted), view, verdict)
    {
      hide S.Stop, G.DecodeMove, Sent;
      var movement := G.DecodeMove(view.payload);
      if !joined || movement.Failure? {
        verdict := RejectProtocol();
        return;
      }
      var ok := SubmitOrStop(R.Move(id, movement.value));
      if !ok {
        return S.Done(false);
      }
      ConsumePacket(view);
      verdict := S.More;
    }

    method HandleLeave(view: P.PacketView) returns (verdict: S.Verdict)
      requires Valid() && view.packetType.LeaveRoom? && view.consumed <= |receive.Readable()|
      modifies this, receive, commands, outbound
      ensures Valid() && commands.closed == old(commands.closed) && receive.storage == old(receive.storage)
      ensures Handled(old(model), old(commands.values), old(submitted), view, verdict)
    {
      hide S.Stop, Sent;
      if view.payload != [] || !joined {
        verdict := RejectProtocol();
        return;
      }
      LeaveRoomIfJoined(R.LeftRoom);
      ConsumePacket(view);
      verdict := S.More;
    }

    /** The state now is what handling the packet makes of the state before. */
    ghost predicate Handled(before: S.Session, values: seq<R.Command>, mine: seq<R.Command>, view: P.PacketView,
                            verdict: S.Verdict)
      requires view.consumed <= |before.inbox|
      reads this, commands
    {
      var (out, expected) := S.HandlePacket(before, view, !commands.closed);
      model == out.session && verdict == expected && Sent(values, mine, out.attempted)
    }

    /** One turn of the packet loop. */
    method ProcessPacket() returns (verdict: S.Verdict)
      requires Valid()
      modifies this, receive, commands, outbound
      ensures Valid() && commands.closed == old(commands.closed) && receive.storage == old(receive.storage)
      ensures model == S.ProcessOne(old(model), !commands.closed).0.session
      ensures verdict == S.ProcessOne(old(model), !commands.closed).1
      ensures Sent(old(commands.values), old(submitted), S.ProcessOne(old(model), !commands.closed).0.attempted)
    {
      hide S.HandlePacket, P.DecodeOne, Sent;
      NothingSent();
      var bytes := receive.Readable();
      if bytes == [] {
        return S.Done(true);
      }
      var decoded := P.DecodeOne(bytes);
      if decoded.Failure? {
        if P.IsIncomplete(decoded.error) {
          return S.Done(true);
        }
        verdict := RejectProtocol();
        return;
      }
      P.PacketOfDecode(bytes);
      verdict := HandlePacket(decoded.value);
    }

    method HandlePacket(view: P.PacketView) returns (verdict: S.Verdict)
      requires Valid() && view.consumed <= |receive.Readable()| && |view.payload| <= P.MAX_PAYLOAD
      modifies this, receive, commands, outbound
      ensures Valid() && commands.closed == old(commands.closed) && receive.storage == old(receive.storage)
      ensures Handled(old(model), old(commands.values), old(submitted), view, verdict)
    {
      hide Sent;
      match view.packetType
      case Ping => verdict := HandlePing(view);
      case JoinRoom => verdict := HandleJoin(view);
      case Move => verdict := HandleMove(view);
      case LeaveRoom => verdict := HandleLeave(view);
      case _ => verdict := RejectProtocol();
    }

    /** What other threads may do to the command queue at any moment: push, pop and close, but not reopen it. */
    method OtherThreads()
      modifies commands
      ensures old(commands.closed) ==> commands.closed
    {
      commands.values := *;
      if * {
        commands.closed := true;
      }
    }

    /**
     process_packets_and_send_responses. Other threads work on the command queue between any two packets; open is how
     many turns of the loop found it open. If nobody closes it, or it was closed before, this is the pass on an open or
     on a closed queue.
     */
    method ProcessPackets() returns (go: bool, ghost open: nat)
      requires Valid()
      modifies this, receive, commands, outbound
      ensures Valid() && receive.storage == old(receive.storage)
      ensures old(commands.closed) ==> commands.closed && open == 0
      ensures var pass := S.PassUntil(old(model), open);
              && model == pass.session && go == pass.go && submitted == old(submitted) + pass.attempted
              && (!commands.closed ==> pass == S.RunPass(old(model), true))
              && (old(commands.closed) ==> pass == S.RunPass(old(model), false).(attempted := []))
    {
      hide S.ProcessOne, S.PassUntil, S.RunPass, S.OnCourse, Valid;
      ghost var start, taken, allOpen := model, [], true;
      open := 0;
      S.StartsOnCourse(start);
      var verdict := S.More;
      while verdict.More?
        invariant Valid() && receive.storage == old(receive.storage)
        invariant old(commands.closed) ==> commands.closed && open == 0
        invariant !allOpen ==> commands.closed
        invariant submitted == old(submitted) + taken
        invariant if verdict.More? then S.OnCourse(start, open, allOpen, taken, model)
                  else S.PassUntil(start, open) == S.Pass(model, taken, verdict.go)
        invariant verdict.Done? && allOpen ==> S.RunPass(start, true) == S.Pass(model, taken, verdict.go)
        decreases verdict.More?, |model.inbox|
      {
        OtherThreads();
        ghost var s, now := model, !commands.closed;
        verdict := ProcessTurn();
        S.CourseTurn(start, open, allOpen, taken, s, now);
        taken := taken + if now then S.ProcessOne(s, now).0.attempted else [];
        open, allOpen := if now then open + 1 else open, allOpen && now;
      }
      go := verdict.go;
      S.PassUntilIsPass(start, 0);
    }

    /** A turn of the loop, and what this session submitted in it. */
    method ProcessTurn() returns (verdict: S.Verdict)
      requires Valid()
      modifies this, receive, commands, outbound
      ensures Valid() && receive.storage == old(receive.storage) && commands.closed == old(commands.closed)
      ensures var (out, expected) := S.ProcessOne(old(model), !commands.closed);
              && model == out.session && verdict == expected
              && submitted == old(submitted) + if commands.closed then [] else out.attempted
    {
      hide S.ProcessOne, Valid;
      assert submitted + [] == submitted;
      verdict := ProcessPacket();
    }

    /** What run() does with a completed read. */
    method OnRead(bytes: seq<Byte>) returns (go: bool, ghost open: nat)
      requires Valid() && |bytes| <= S.READ_CHUNK
      modifies this, receive, receive.storage, commands, outbound
      ensures Valid() && (old(commands.closed) ==> commands.closed && open == 0)
      ensures var (out, ok) := S.Received(old(model), bytes);
              if !ok then !go && model == out.session && Sent(old(commands.values), old(submitted), out.attempted)
              else
                var pass := S.PassUntil(out.session, open);
                && go == pass.go && model == pass.session && submitted == old(submitted) + pass.attempted
                && (!commands.closed ==> pass == S.RunPass(out.session, true))
                && (old(commands.closed) ==> pass == S.RunPass(out.session, false).(attempted := []))
    {
      hide S.PassUntil, S.RunPass, S.Stop, Sent;
      open := 0;
      var appended := receive.Append(bytes);
      if !appended {
        StopSession(R.ProtocolError);
        return false, 0;
      }
      model := S.WithMore(model, bytes);
      go, open := ProcessPackets();
    }

    /** What run() does with a failed read. */
    method OnReadError(error: S.ReadError)
      requires Valid()
      modifies this, commands, outbound
      ensures Valid() && commands.closed == old(commands.closed)
      ensures model == S.ReadFailed(old(model), error).session
      ensures Sent(old(commands.values), old(submitted), S.ReadFailed(old(model), error).attempted)
    {
      hide S.Stop, Sent;
      NothingSent();
      if error.Eof? {
        StopSession(R.ClientClosed);
        return;
      }
      if error.Aborted? && stopped {
        return;
      }
      StopSession(R.IoError);
    }
  }
}
