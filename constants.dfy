/** The enumerations of lib/constants.js: error kinds, transaction states, logged operations. */
module Constants {

  /** `errorTypes`: the kind tag every coordinator error carries. */
  datatype ErrorType =
    | InternalError
    | InvalidOperation
    | MissingParameter
    | InvalidParameter
    | InvalidTransactionState
    | InvalidEntityState
    | EntityLocked
  {
    function Name(): string {
      match this
      case InternalError => "INTERNAL_ERROR"
      case InvalidOperation => "INVALID_OPERATION"
      case MissingParameter => "MISSING_PARAMETER"
      case InvalidParameter => "INVALID_PARAMETER"
      case InvalidTransactionState => "INVALID_TRANSACTION_STATE"
      case InvalidEntityState => "INVALID_ENTITY_STATE"
      case EntityLocked => "ENTITY_LOCKED"
    }
  }

  /** `states`: the lifecycle of a persisted transaction record. */
  datatype State = Pending | Committed | Rollback | Cancelled | Finished | Activated
  {
    function Name(): string {
      match this
      case Pending => "pending"
      case Committed => "committed"
      case Rollback => "rollback"
      case Cancelled => "cancelled"
      case Finished => "finished"
      case Activated => "activated"
    }

    /** The two end states of index.js: nothing may reopen or lock for such a record. */
    predicate Closed() {
      this == Cancelled || this == Finished
    }
  }

  /** `operations`: what an action-log entry records. */
  datatype Operation = Create | Update | Remove
  {
    function Name(): string {
      match this
      case Create => "create"
      case Update => "update"
      case Remove => "remove"
    }
  }
}

/** The errors the coordinator raises or passes through. */
module Errors {
  import opened Constants

  datatype Error =
      /** lib/MError.js: an Error whose `type` is one of `errorTypes`. */
    | MError(message: string, errorType: ErrorType)
      /** A JavaScript runtime error, here always a property read on `null`. */
    | TypeError(message: string)
      /** An error the caller's own block throws. */
    | BizError(message: string)

  /**
   * The runtime error of reading property `prop` of `null`, in the wording of
   * Node.js up to version 14; from version 16 on the V8 message reads
   * "Cannot read properties of null (reading 'prop')".
   */
  function NullRead(prop: string): Error {
    TypeError("Cannot read property '" + prop + "' of null")
  }

  /** Joins names with commas, as a JavaScript array renders inside a template string. */
  function Join(names: seq<string>): string
    decreases |names|
  {
    if names == [] then ""
    else if |names| == 1 then names[0]
    else names[0] + "," + Join(names[1..])
  }

  /** index.js `try` called a second time. */
  function TriedAgain(): Error {
    MError("The transaction has tried, do not try it again!", InvalidOperation)
  }

  /** index_bak.js `try` called a second time. */
  function TriedAgainBak(): Error {
    MError("The transaction have tried, do not try it again!", InvalidOperation)
  }

  function OutsideTry(): Error {
    MError("Do not execute dangerous operation outside try method of transaction!", InvalidOperation)
  }

  function NotPending(): Error {
    MError("Transaction is not pending!", InvalidTransactionState)
  }

  /** `shown` is the entity's `id` property: its id for a found entity, "undefined" otherwise. */
  function Locked(model: string, shown: string): Error {
    MError("Entity [" + model + ":" + shown + "] is locked!", EntityLocked)
  }

  function AlreadyExists(model: string, entity: string): Error {
    MError("Entity [" + model + ":" + entity + "] has already exists!", InvalidEntityState)
  }

  function UnexpectedState(id: string, expected: string, got: State): Error {
    MError("Expected the transaction [" + id + "] to be " + expected + ", but got " + got.Name(), InvalidTransactionState)
  }

  function ClosedState(id: string, got: State): Error {
    MError("The transaction [" + id + "] has [" + got.Name() + "].", InvalidTransactionState)
  }

  function ModelNotUsed(model: string): Error {
    MError("Model " + model + " has not used, please use the model first", InvalidOperation)
  }

  function UseFirst(names: seq<string>): Error {
    MError(Join(names) + " should be used first!", InvalidOperation)
  }
}
