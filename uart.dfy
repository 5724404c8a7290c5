/**
 * The buffered UART driver: a transmission status and two byte queues,
 * updated in place by the driver's entry points.  Each method is proved
 * to take the driver from a state whose abstraction is `s` to one whose
 * abstraction is the matching function of module UartModel applied to
 * `s`, so the ordering and draining lemmas proved there hold of every
 * sequence of calls of the driver's entry points (`Putch`, `Reception`,
 * `Getch`, `CaracteresDisponiblesPourTransmission`, `Transmission`,
 * `Interruption` and `Reinitialise`) on a `Driver`.
 *
 * The hardware transmitter is a ghost sequence `sink` of the bytes it
 * was handed, together with `dernierCaractereTransmis`, the last of them,
 * which is what the driver's own test observes.
 */
module UartDriver {
  import opened Files
  import opened UartModel

  class Driver {
    var etat: UartStatus
    /** Filled by `Reception`, emptied by `Getch`. */
    const fileReception: File
    /** Filled by `Putch`, emptied by `Transmission`. */
    const fileTransmission: File
    var dernierCaractereTransmis: Octet
    /** Bytes handed to the transmitter since the last reinitialisation. */
    ghost var sink: seq<Octet>

    ghost predicate Valid()
      reads this, fileReception, fileTransmission,
            fileReception.donnees, fileTransmission.donnees
    {
      fileReception != fileTransmission &&
      fileReception.donnees != fileTransmission.donnees &&
      fileReception.Valid() && fileTransmission.Valid() &&
      fileReception.capacite == fileTransmission.capacite
    }

    /** The driver seen as a value. */
    ghost function Modele(): Uart
      reads this, fileReception, fileTransmission
    {
      Uart(fileTransmission.capacite, etat,
           fileTransmission.Contents, fileReception.Contents, sink)
    }

    /** The driver starts idle with both queues empty. */
    constructor (capacite: nat)
      requires 0 < capacite
      ensures Valid() && Inv(Modele())
      ensures fresh(fileReception) && fresh(fileTransmission)
      ensures fresh(fileReception.donnees) && fresh(fileTransmission.donnees)
      ensures etat == Repos
      ensures fileTransmission.Contents == [] && fileReception.Contents == []
      ensures sink == [] && Modele().capacite == capacite
      ensures dernierCaractereTransmis == 0
    {
      etat := Repos;
      fileReception := new File(capacite);
      fileTransmission := new File(capacite);
      dernierCaractereTransmis := 0;
      sink := [];
    }

    /** Hands one byte to the hardware transmitter. */
    method DemarreTransmission(data: Octet)
      modifies this
      ensures dernierCaractereTransmis == data && sink == old(sink) + [data]
      ensures etat == old(etat)
    {
      dernierCaractereTransmis := data;
      sink := sink + [data];
    }

    /**
     * Submits a byte for transmission.  The wait for room in the transmit
     * queue, when busy, is the precondition.
     */
    method Putch(data: Octet)
      requires Valid()
      requires etat == EnCours ==> !fileTransmission.EstPleine()
      modifies this, fileTransmission, fileTransmission.donnees
      ensures Valid()
      ensures old(etat) == Repos ==>
        etat == EnCours && sink == old(sink) + [data] && dernierCaractereTransmis == data &&
        fileTransmission.Contents == old(fileTransmission.Contents)
      ensures old(etat) == EnCours ==>
        etat == EnCours && sink == old(sink) &&
        dernierCaractereTransmis == old(dernierCaractereTransmis) &&
        fileTransmission.Contents == old(fileTransmission.Contents) + [data]
      ensures fileReception.Contents == old(fileReception.Contents)
      ensures Modele() == UartModel.Putch(old(Modele()), data)
    {
      if etat == Repos {
        DemarreTransmission(data);
        etat := EnCours;
      } else {
        fileTransmission.Enfile(data);
      }
    }

    /** Takes the oldest received byte; the wait for one is the precondition. */
    method Getch() returns (c: Octet)
      requires Valid() && !fileReception.EstVide()
      modifies fileReception
      ensures Valid()
      ensures c == old(fileReception.Contents)[0]
      ensures fileReception.Contents == old(fileReception.Contents)[1..]
      ensures (c, Modele()) == UartModel.Getch(old(Modele()))
    {
      c := fileReception.Defile();
    }

    /** Called on each received byte; the receive queue must have room. */
    method Reception(c: Octet)
      requires Valid() && !fileReception.EstPleine()
      modifies fileReception, fileReception.donnees
      ensures Valid()
      ensures fileReception.Contents == old(fileReception.Contents) + [c]
      ensures Modele() == UartModel.Reception(old(Modele()), c)
    {
      fileReception.Enfile(c);
    }

    /**
     * Answers 0 and goes idle when nothing is left to transmit, otherwise
     * answers 255 and changes nothing.
     */
    method CaracteresDisponiblesPourTransmission() returns (n: Octet)
      requires Valid()
      modifies this
      ensures Valid()
      ensures fileTransmission.Contents == [] ==> n == 0 && etat == Repos
      ensures fileTransmission.Contents != [] ==> n == 255 && etat == old(etat)
      ensures sink == old(sink)
      ensures dernierCaractereTransmis == old(dernierCaractereTransmis)
      ensures (n, Modele()) == UartModel.Disponibles(old(Modele()))
    {
      if fileTransmission.EstVide() {
        etat := Repos;
        n := 0;
      } else {
        n := 255;
      }
    }

    /** Takes the oldest byte waiting for transmission. */
    method Transmission() returns (c: Octet)
      requires Valid() && !fileTransmission.EstVide()
      modifies fileTransmission
      ensures Valid()
      ensures c == old(fileTransmission.Contents)[0]
      ensures fileTransmission.Contents == old(fileTransmission.Contents)[1..]
      ensures (c, Modele()) == UartModel.Transmission(old(Modele()))
    {
      c := fileTransmission.Defile();
    }

    /** Flushes both queues and returns to idle, whatever the prior state. */
    method Reinitialise()
      requires Valid()
      modifies this, fileReception, fileTransmission
      ensures Valid() && Inv(Modele())
      ensures etat == Repos
      ensures fileReception.Contents == [] && fileTransmission.Contents == []
      ensures dernierCaractereTransmis == old(dernierCaractereTransmis)
      ensures Modele() == UartModel.Reinitialise(old(Modele()))
    {
      fileReception.Reinitialise();
      fileTransmission.Reinitialise();
      etat := Repos;
      sink := [];
    }

    /**
     * The transmitter-ready interrupt: checks for a pending byte and only
     * then takes it and hands it to the transmitter.
     */
    method Interruption()
      requires Valid()
      modifies this, fileTransmission
      ensures Valid()
      ensures old(fileTransmission.Contents) != [] ==>
        dernierCaractereTransmis == old(fileTransmission.Contents)[0] &&
        sink == old(sink) + [old(fileTransmission.Contents)[0]] &&
        fileTransmission.Contents == old(fileTransmission.Contents)[1..] &&
        etat == old(etat)
      ensures old(fileTransmission.Contents) == [] ==>
        dernierCaractereTransmis == old(dernierCaractereTransmis) &&
        sink == old(sink) && fileTransmission.Contents == [] && etat == Repos
      ensures Modele() == UartModel.Interruption(old(Modele()))
      ensures Inv(old(Modele())) ==> Inv(Modele())
    {
      var n := CaracteresDisponiblesPourTransmission();
      if n != 0 {
        var c := Transmission();
        DemarreTransmission(c);
      }
    }
  }

  /**
   * The driver's own test: from a freshly started driver, 'A' goes straight
   * to the transmitter, 'T' waits in the queue and is the next byte taken,
   * after which nothing is left to transmit.
   */
  method TestAT(capacite: nat)
    returns (etat: UartStatus, dernier: Octet, ghost envoyes: seq<Octet>, t: Octet, n: Octet)
    requires 0 < capacite
    ensures etat == EnCours && dernier == 'A' as Octet && envoyes == ['A' as Octet]
    ensures t == 'T' as Octet && n == 0
  {
    var uart := new Driver(capacite);
    uart.Putch('A' as Octet);
    uart.Putch('T' as Octet);
    etat := uart.etat;
    dernier := uart.dernierCaractereTransmis;
    envoyes := uart.sink;
    t := uart.Transmission();
    n := uart.CaracteresDisponiblesPourTransmission();
  }
}
