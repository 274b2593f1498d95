/**
 * Installing the app as a progressive web app: the install state the hook
 * project/src/hooks/usePWA.ts keeps, updated by the browser's two events
 * and by the install action, and the banner of
 * project/src/components/InstallPWA.tsx that offers the install until it
 * is dismissed. The browser's events arrive as method calls; what the user
 * answers to the install prompt is a parameter.
 */
module Pwa {
  import opened Wrappers

  /** A `beforeinstallprompt` event the browser handed over; `id` tells events apart. */
  datatype PromptEvent = PromptEvent(id: nat)

  /** The outcome of the browser's install prompt. */
  datatype Choice = Accepted | Dismissed

  /** The hook's state. */
  class PwaInstall {
    var deferredPrompt: Option<PromptEvent>
    var isInstallable: bool
    var isInstalled: bool

    /** The app counts as installable exactly while an install prompt is kept. */
    predicate Valid()
      reads this
    {
      deferredPrompt.Some? <==> isInstallable
    }

    constructor ()
      ensures Valid()
      ensures deferredPrompt == None && !isInstallable && !isInstalled
    {
      deferredPrompt := None;
      isInstallable := false;
      isInstalled := false;
    }

    /** The mount effect: in standalone display mode the app is already installed. */
    method Mount(standalone: bool)
      requires Valid()
      modifies this
      ensures Valid()
      ensures isInstalled == (old(isInstalled) || standalone)
      ensures deferredPrompt == old(deferredPrompt) && isInstallable == old(isInstallable)
    {
      if standalone {
        isInstalled := true;
      }
    }

    /** `beforeinstallprompt`: the event is kept for later and the app becomes installable. */
    method OnBeforeInstallPrompt(e: PromptEvent)
      requires Valid()
      modifies this
      ensures Valid()
      ensures deferredPrompt == Some(e) && isInstallable
      ensures isInstalled == old(isInstalled)
    {
      deferredPrompt := Some(e);
      isInstallable := true;
    }

    /** `appinstalled`: the app is installed, no longer installable, and the prompt is dropped. */
    method OnAppInstalled()
      requires Valid()
      modifies this
      ensures Valid()
      ensures isInstalled && !isInstallable && deferredPrompt == None
    {
      isInstalled := true;
      isInstallable := false;
      deferredPrompt := None;
    }

    /**
     * `installApp`: without a kept prompt it reports false and changes
     * nothing. Otherwise the kept prompt is shown (`shown`); an accepted
     * prompt is used up, ends the installable state and reports true, a
     * dismissed one reports false and leaves everything as it was.
     */
    method InstallApp(choice: Choice) returns (success: bool, shown: Option<PromptEvent>)
      requires Valid()
      modifies this
      ensures Valid()
      ensures isInstalled == old(isInstalled)
      ensures shown == old(deferredPrompt)
      ensures success <==> old(deferredPrompt).Some? && choice == Accepted
      ensures success ==> deferredPrompt == None && !isInstallable
      ensures !success ==> deferredPrompt == old(deferredPrompt) && isInstallable == old(isInstallable)
    {
      if deferredPrompt.None? {
        return false, None;
      }
      shown := deferredPrompt;
      if choice == Accepted {
        deferredPrompt := None;
        isInstallable := false;
        return true, shown;
      }
      success := false;
    }
  }

  /** The install banner over the hook's state. */
  class InstallBanner {
    const pwa: PwaInstall
    var dismissed: bool

    /** The banner shows while the app is installable, not installed, and the banner was not dismissed. */
    predicate Visible()
      reads this, pwa
    {
      pwa.isInstallable && !pwa.isInstalled && !dismissed
    }

    constructor (pwa: PwaInstall)
      ensures this.pwa == pwa && !dismissed
    {
      this.pwa := pwa;
      dismissed := false;
    }

    /** 'Not now': the banner is dismissed for good. */
    method NotNow()
      modifies this
      ensures dismissed && !Visible()
    {
      dismissed := true;
    }

    /** The close button: the same as 'Not now'. */
    method CloseBanner()
      modifies this
      ensures dismissed && !Visible()
    {
      dismissed := true;
    }

    /**
     * The Install button, which only a visible banner shows: it hands over to
     * `installApp`; an accepted install hides the banner, a dismissed prompt
     * leaves it showing.
     */
    method Install(choice: Choice) returns (success: bool)
      requires Visible() && pwa.Valid()
      modifies pwa
      ensures pwa.Valid()
      ensures dismissed == old(dismissed)
      ensures success <==> choice == Accepted
      ensures success ==> !Visible()
      ensures !success ==> Visible()
      ensures pwa.isInstalled == old(pwa.isInstalled)
      ensures success ==> pwa.deferredPrompt.None? && !pwa.isInstallable
      ensures !success ==> pwa.deferredPrompt == old(pwa.deferredPrompt) && pwa.isInstallable
    {
      var shown;
      success, shown := pwa.InstallApp(choice);
    }

    /** The browser announcing that the app is installed hides the banner, and it stays hidden while dismissed. */
    method AppInstalled()
      requires pwa.Valid()
      modifies pwa
      ensures pwa.Valid() && !Visible()
      ensures dismissed == old(dismissed)
      ensures pwa.isInstalled && !pwa.isInstallable && pwa.deferredPrompt.None?
    {
      pwa.OnAppInstalled();
    }

    /**
     * A new install prompt makes the app installable again, but a dismissed
     * banner does not come back.
     */
    method PromptArrived(e: PromptEvent)
      requires pwa.Valid()
      modifies pwa
      ensures pwa.Valid() && dismissed == old(dismissed)
      ensures Visible() <==> !pwa.isInstalled && !dismissed
      ensures pwa.deferredPrompt == Some(e) && pwa.isInstallable
      ensures pwa.isInstalled == old(pwa.isInstalled)
    {
      pwa.OnBeforeInstallPrompt(e);
    }
  }
}
