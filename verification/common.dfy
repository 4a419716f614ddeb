/**
 * The RPC records exchanged between the Clerk and the lock servers, and the reply
 * contract the servers document for Lock and Unlock, stated over an abstract lock
 * table: the set of lock names currently held.
 */
module Common {

  /** Arguments of LockServer.Lock: the lock's name and the request identifier. */
  datatype LockArgs = LockArgs(lockname: string, uuid: string)

  /** Reply of LockServer.Lock: whether the lock was granted, and an identifier. */
  datatype LockReply = LockReply(ok: bool, uuid: string)

  /** Arguments of LockServer.Unlock. */
  datatype UnlockArgs = UnlockArgs(lockname: string, uuid: string)

  /** Reply of LockServer.Unlock: whether the lock was held, and an identifier. */
  datatype UnlockReply = UnlockReply(ok: bool, uuid: string)

  /** A reply together with the lock table after the server handled the request. */
  datatype Served<R> = Served(reply: R, held: set<string>)

  /**
   * Lock answers at once: granted exactly when the name is not held, and then the
   * name is held; a held name is refused and the table is left alone.
   */
  function ServeLock(held: set<string>, args: LockArgs): (r: Served<LockReply>)
    ensures r.reply.ok <==> args.lockname !in held
    ensures args.lockname in r.held
    ensures forall m :: m != args.lockname ==> (m in r.held <==> m in held)
    ensures r.reply.uuid == args.uuid
  {
    if args.lockname in held then Served(LockReply(false, args.uuid), held)
    else Served(LockReply(true, args.uuid), held + {args.lockname})
  }

  /**
   * Unlock answers true exactly when the name was held, and afterwards the name
   * is not held; no other name changes.
   */
  function ServeUnlock(held: set<string>, args: UnlockArgs): (r: Served<UnlockReply>)
    ensures r.reply.ok <==> args.lockname in held
    ensures args.lockname !in r.held
    ensures forall m :: m != args.lockname ==> (m in r.held <==> m in held)
    ensures r.reply.uuid == args.uuid
  {
    Served(UnlockReply(args.lockname in held, args.uuid), held - {args.lockname})
  }

  /** Locking a free name and then unlocking it succeeds twice and restores the table. */
  lemma LockThenUnlockRestores(held: set<string>, name: string, lockId: string, unlockId: string)
    requires name !in held
    ensures var l := ServeLock(held, LockArgs(name, lockId));
            var u := ServeUnlock(l.held, UnlockArgs(name, unlockId));
            l.reply.ok && u.reply.ok && u.held == held
  {
  }

  /** Mutual exclusion: once granted, the same name is refused until it is unlocked. */
  lemma GrantedLockExcludes(held: set<string>, first: LockArgs, second: LockArgs)
    requires first.lockname == second.lockname
    ensures !ServeLock(ServeLock(held, first).held, second).reply.ok
  {
  }
}
