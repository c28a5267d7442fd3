/** Shared vocabulary of the raffle backend: optional values, the outcome of an
    operation that can fail, and the error kinds the services throw. */
module Common {

  datatype Option<T> = None | Some(value: T) {
    function GetOr(default: T): T {
      match this
      case Some(v) => v
      case None => default
    }
  }

  /** `x || 0` on a numeric field that may be missing. */
  function OrZero(o: Option<int>): int {
    o.GetOr(0)
  }

  /** The errors the services raise, one constructor per distinct message. */
  datatype Error =
    | RaffleNotFound                      // ERROR_MESSAGES.RAFFLE_NOT_FOUND
    | RaffleNotOnSale                     // 'Rifa não está ativa para vendas'
    | InsufficientTickets(available: int) // 'Apenas N tickets disponíveis'
    | PerPersonLimit(limit: int)          // 'Limite de N tickets por pessoa'
    | NumbersUnavailable                  // 'Alguns números não estão mais disponíveis'
    | TicketNotFound                      // ERROR_MESSAGES.TICKET_NOT_FOUND
    | NotFound                            // BaseService.findById on a missing id
    | RepositoryNotInitialized            // BaseService without a repository
    | AccessDenied                        // ERROR_MESSAGES.ACCESS_DENIED
    | TicketAlreadyPaid                   // 'Não é possível cancelar ticket já pago'
    | UserIdRequired                      // 'ID do usuário é obrigatório'
    | TicketNotFoundForPayment            // 'Ticket não encontrado para criar pagamento'
    | PaymentNotFound                     // ERROR_MESSAGES.PAYMENT_NOT_FOUND
    | TicketNotPending                    // 'Ticket não está pendente de pagamento'
    | InvalidTransition                   // 'Transição de status inválida'
    | EndDateRequired                     // 'Rifa deve ter data de fim definida ...'
    | RaffleNotActive                     // 'Rifa deve estar ativa para ser sorteada'
    | AlreadyDrawn                        // 'Rifa já foi sorteada'
    | NoPaidTickets                       // 'Não há tickets pagos para o sorteio'
    | RestrictedField(field: string)      // 'Não é possível alterar <field> ...'
    | HasSoldTickets                      // 'Não é possível excluir rifa com tickets vendidos'
    | MissingFields                       // createRaffle: required fields
    | NonPositiveValues                   // createRaffle: price and total must be > 0
    | EndDateNotInFuture                  // createRaffle: end date in the past
    | LoginAttemptsExceeded               // HTTP 429
    | InvalidCredentials                  // HTTP 401
    | AccountInactive                     // HTTP 403
    | EmailInUse                          // HTTP 409
    | UserNotFound                        // ERROR_MESSAGES.USER_NOT_FOUND
    | WrongCurrentPassword                // 'Senha atual incorreta'
    | Internal                            // a TypeError on a missing record

  datatype Result<T> = Ok(value: T) | Err(error: Error) {
    predicate IsFailure() { Err? }
    function PropagateFailure<U>(): Result<U> requires Err? { Err(error) }
    function Extract(): T requires Ok? { value }
  }
}
