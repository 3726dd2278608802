/**
 * The web3 store: the wallet state, the web3 task list, the connecting
 * flag and the last error, with the bookkeeping actions around them. What
 * the wallet library reports when a task is executed is a parameter.
 */
module Web3Tasks {
  import opened Wrappers
  import opened Seqs
  import opened Web3

  /** What `addWeb3Task` is given: a task without id and completion flag. */
  datatype Web3TaskDraft = Web3TaskDraft(
    kind: Web3TaskType,
    title: string,
    description: Option<string>,
    chain: ChainId,
    contractAddress: Option<string>,
    deadline: Option<int>,
    estimatedGas: Option<string>,
    value: Option<string>,
    deepLink: Option<string>)

  function NewWeb3Task(draft: Web3TaskDraft, id: string): (t: Web3Task)
    ensures t.id == id && !t.completed
    ensures t.kind == draft.kind && t.title == draft.title && t.description == draft.description
    ensures t.chain == draft.chain && t.contractAddress == draft.contractAddress && t.deadline == draft.deadline
    ensures t.estimatedGas == draft.estimatedGas && t.value == draft.value && t.deepLink == draft.deepLink
  {
    Web3Task(id, draft.kind, draft.title, draft.description, draft.chain, draft.contractAddress,
             draft.deadline, draft.estimatedGas, draft.value, draft.deepLink, false)
  }

  /** `{ success, txHash?, error? }`, as the wallet library reports an execution. */
  datatype ExecutionResult = ExecutionResult(success: bool, txHash: Option<string>, error: Option<string>)

  const TaskNotFound := ExecutionResult(false, None, Some("Task not found"))

  /** The task list after `completeWeb3Task(id)`: every task with this id completed, the others untouched. */
  function CompleteById(tasks: seq<Web3Task>, id: string): (r: seq<Web3Task>)
    ensures |r| == |tasks|
    ensures forall i :: 0 <= i < |tasks| ==>
      r[i] == if tasks[i].id == id then tasks[i].(completed := true) else tasks[i]
  {
    MapWhere(tasks, (t: Web3Task) => t.id == id, (t: Web3Task) => t.(completed := true))
  }

  /** Completing twice is completing once, and afterwards every task with this id is completed. */
  lemma CompleteByIdLaws(tasks: seq<Web3Task>, id: string)
    ensures CompleteById(CompleteById(tasks, id), id) == CompleteById(tasks, id)
    ensures forall t :: t in CompleteById(tasks, id) && t.id == id ==> t.completed
  {
    var once := CompleteById(tasks, id);
    var twice := CompleteById(once, id);
    assert |twice| == |once|;
    forall i | 0 <= i < |once| ensures twice[i] == once[i] {
    }
  }

  /** A list with no task of this id is left as it is. */
  lemma CompleteAbsent(tasks: seq<Web3Task>, id: string)
    requires forall i :: 0 <= i < |tasks| ==> tasks[i].id != id
    ensures CompleteById(tasks, id) == tasks
  {
  }

  class Web3Store {
    var wallet: WalletState
    var tasks: seq<Web3Task>
    var isConnecting: bool
    var error: Option<string>

    /** A disconnected wallet, no tasks, not connecting, no error. */
    constructor()
      ensures wallet == Disconnected && tasks == [] && !isConnecting && error.None?
    {
      wallet := Disconnected;
      tasks := [];
      isConnecting := false;
      error := None;
    }

    method DisconnectWallet()
      modifies this
      ensures wallet == Web3.DisconnectWallet()
      ensures !wallet.isConnected && wallet.address.None? && wallet.chainId.None? && wallet.balance.None?
      ensures tasks == old(tasks) && isConnecting == old(isConnecting) && error == old(error)
    {
      wallet := Web3.DisconnectWallet();
    }

    method AddWeb3Task(draft: Web3TaskDraft, id: string)
      modifies this
      ensures tasks == old(tasks) + [NewWeb3Task(draft, id)]
      ensures wallet == old(wallet) && isConnecting == old(isConnecting) && error == old(error)
    {
      tasks := tasks + [NewWeb3Task(draft, id)];
    }

    method CompleteWeb3Task(id: string)
      modifies this
      ensures tasks == CompleteById(old(tasks), id)
      ensures wallet == old(wallet) && isConnecting == old(isConnecting) && error == old(error)
    {
      tasks := CompleteById(tasks, id);
    }

    /**
     * `executeTask`: an unknown id fails with 'Task not found' and changes
     * nothing; otherwise the first task with that id is handed to the
     * wallet library (`execute`), whose result is returned, and the task is
     * completed exactly when that result reports success.
     */
    method ExecuteTask(id: string, execute: Web3Task -> ExecutionResult) returns (result: ExecutionResult)
      modifies this
      ensures (forall i :: 0 <= i < |old(tasks)| ==> old(tasks)[i].id != id) ==>
        result == TaskNotFound && tasks == old(tasks)
      ensures (exists i :: 0 <= i < |old(tasks)| && old(tasks)[i].id == id) ==>
        (exists i :: 0 <= i < |old(tasks)| && old(tasks)[i].id == id
           && (forall j :: 0 <= j < i ==> old(tasks)[j].id != id) && result == execute(old(tasks)[i]))
        && tasks == (if result.success then CompleteById(old(tasks), id) else old(tasks))
      ensures wallet == old(wallet) && isConnecting == old(isConnecting) && error == old(error)
    {
      var found := FindIndex(tasks, (t: Web3Task) => t.id == id);
      if found.None? {
        return TaskNotFound;
      }
      result := execute(tasks[found.value]);
      if result.success {
        CompleteWeb3Task(id);
      }
    }

    /** Replaces the task list by the four samples; the wallet is kept. */
    method LoadSampleTasks(now: int)
      modifies this
      ensures tasks == CreateSampleWeb3Tasks(now)
      ensures wallet == old(wallet) && isConnecting == old(isConnecting) && error == old(error)
    {
      tasks := CreateSampleWeb3Tasks(now);
    }

    method ClearError()
      modifies this
      ensures error.None?
      ensures wallet == old(wallet) && tasks == old(tasks) && isConnecting == old(isConnecting)
    {
      error := None;
    }
  }
}
